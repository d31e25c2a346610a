/** The twelve palaces (十二宫) in their ring order, the hour to branch
    normaliser, the year stem-branch helper of the palace locator, and the
    life palace / body palace (命宫 / 身宫) formula. */
module Palaces {
  import opened Outcomes
  import opened Modular
  import opened GanZhi

  /** The Palace enum, in declaration order; Value() is the enum value. */
  datatype Palace =
    | Life | Siblings | Spouse | Children | Wealth | Health
    | Travel | Friends | Career | Property | Bless | Parents
  {
    function Value(): string {
      match this
      case Life => "命宫" case Siblings => "兄弟" case Spouse => "夫妻"
      case Children => "子女" case Wealth => "财帛" case Health => "疾厄"
      case Travel => "迁移" case Friends => "交友" case Career => "事业"
      case Property => "田宅" case Bless => "福德" case Parents => "父母"
    }

    /** The position of the member in list(Palace). */
    function Index(): (i: int)
      ensures 0 <= i < 12 && Ring[i] == this
    {
      match this
      case Life => 0 case Siblings => 1 case Spouse => 2 case Children => 3
      case Wealth => 4 case Health => 5 case Travel => 6 case Friends => 7
      case Career => 8 case Property => 9 case Bless => 10 case Parents => 11
    }
  }

  /** list(Palace). */
  const Ring: seq<Palace> :=
    [Life, Siblings, Spouse, Children, Wealth, Health, Travel, Friends, Career, Property, Bless, Parents]

  /** The ring lists each palace once, at its own index. */
  lemma RingIndex(i: int)
    requires 0 <= i < 12
    ensures Ring[i].Index() == i
  {
  }

  // ------------------------------------------------------------ year pair

  /** GanZhiConverter.get_gan_zhi of the palace locator: the year pair
      counted from the year 4, a 甲子 year. It is the stem-branch
      calendar's year pair: the two counts, from the year 4 and from 1864,
      are 1860 years (31 sixty-year cycles) apart. */
  function GetGanZhi(year: int): (gz: string)
    ensures gz == YearGanZhi(year).gz
  {
    var tianGanIndex := (year - 4) % 10;
    var diZhiIndex := (year - 4) % 12;
    ModOf60(year - 1864);
    Shift10(year - 1864, 186);
    Shift12(year - 1864, 155);
    [TianGan[tianGanIndex]] + [DiZhi[diZhiIndex]]
  }

  // ----------------------------------------------------------------- hour

  /** An hour as the source accepts it: a Python int or a string. */
  datatype HourInput = IntHour(h: int) | TextHour(s: string)

  /** get_hour_zhi: a 24-hour clock hour becomes the branch of its two-hour
      window (23 and 0 are 子); a branch name is returned unchanged; any other
      string is a ValueError. */
  function GetHourZhi(hour: HourInput): (r: Result<string>)
    ensures r.Ok? ==> IsBranch(r.value)
    ensures hour.TextHour? ==> (r.Ok? <==> IsBranch(hour.s))
    ensures hour.TextHour? && r.Ok? ==> r.value == hour.s
    ensures r.Err? ==> r.error == ValueError(BadHourFormat)
  {
    match hour
    case IntHour(h) => Ok([DiZhi[((h + 1) % 24) / 2]])
    case TextHour(s) => if IsBranch(s) then Ok(s) else Err(ValueError(BadHourFormat))
  }

  /** Every int hour gives a branch; the window of branch k is the pair of
      hours 2k-1 and 2k (mod 24). */
  lemma HourWindows(k: int)
    requires 0 <= k < 12
    ensures GetHourZhi(IntHour(2 * k)) == Ok([DiZhi[k]])
    ensures GetHourZhi(IntHour((2 * k + 23) % 24)) == Ok([DiZhi[k]])
  {
    Mod24(2 * k + 1, 0, 2 * k + 1);
    assert (2 * k + 1) / 2 == k;
    var h := (2 * k + 23) % 24;
    if k == 0 {
      Mod24(23, 0, 23);
      Mod24(24, 1, 0);
    } else {
      Mod24(2 * k + 23, 1, 2 * k - 1);
      Mod24(2 * k, 0, 2 * k);
      assert h + 1 == 2 * k;
    }
    assert ((h + 1) % 24) / 2 == k;
  }

  /** The int-hour mapping repeats every 24 hours, for negative hours too. */
  lemma HourPeriodic(h: int)
    ensures GetHourZhi(IntHour(h + 24)) == GetHourZhi(IntHour(h))
  {
    Shift24(h + 1, 1);
  }

  /** Normalising a normalised hour changes nothing. */
  lemma HourIdempotent(hour: HourInput)
    requires GetHourZhi(hour).Ok?
    ensures GetHourZhi(TextHour(GetHourZhi(hour).value)) == GetHourZhi(hour)
  {
  }

  // --------------------------------------------------------- life and body

  /** calc_life_body_palace: the month must lie in 1..12 and the hour must be
      a branch (ValueError otherwise). Counting from 寅 for month 1, the life
      palace steps forward with the month and back with the hour; the body
      palace steps forward with the hour from 寅. */
  function CalcLifeBodyPalace(month: int, hourZhi: string): (r: Result<(Palace, Palace)>)
    ensures !(1 <= month <= 12) ==> r == Err(ValueError(MonthOutOfRange))
    ensures 1 <= month <= 12 && !IsBranch(hourZhi) ==> r == Err(ValueError(BadHourBranch))
    ensures 1 <= month <= 12 && IsBranch(hourZhi) ==>
      && r.Ok?
      && r.value.0.Index() == (month + 1 - BranchIndex(hourZhi[0])) % 12
      && r.value.1.Index() == (2 + BranchIndex(hourZhi[0])) % 12
  {
    if !(1 <= month <= 12) then Err(ValueError(MonthOutOfRange))
    else if !IsBranch(hourZhi) then Err(ValueError(BadHourBranch))
    else
      var baseIdx := 2;
      var monthIdx := (baseIdx + month - 1) % 12;
      var hourSteps := BranchIndex(hourZhi[0]);
      var lifeIdx := (monthIdx - hourSteps) % 12;
      var bodyIdx := (baseIdx + hourSteps) % 12;
      RingIndex(bodyIdx);
      LifeIndex(month, hourSteps);
      RingIndex(lifeIdx);
      Ok((Ring[lifeIdx], Ring[bodyIdx]))
  }

  /** Reducing the month index before subtracting the hour does not change
      the life palace index. */
  lemma LifeIndex(month: int, h: int)
    ensures ((2 + month - 1) % 12 - h) % 12 == (month + 1 - h) % 12
  {
    var x := month + 1;
    Shift12(x % 12 - h, x / 12);
  }

  /** The body palace does not depend on the month. */
  lemma BodyIgnoresMonth(m1: int, m2: int, hourZhi: string)
    requires 1 <= m1 <= 12 && 1 <= m2 <= 12 && IsBranch(hourZhi)
    ensures CalcLifeBodyPalace(m1, hourZhi).value.1 == CalcLifeBodyPalace(m2, hourZhi).value.1
  {
  }

  /** Whatever the hour, the two palace indices add up to month + 3. */
  lemma LifeBodySum(month: int, hourZhi: string)
    requires 1 <= month <= 12 && IsBranch(hourZhi)
    ensures var p := CalcLifeBodyPalace(month, hourZhi).value;
      (p.0.Index() + p.1.Index()) % 12 == (month + 3) % 12
  {
    var h := BranchIndex(hourZhi[0]);
    var x, y := month + 1 - h, 2 + h;
    Shift12(x % 12 + y % 12, x / 12 + y / 12);
  }

  /** Month 5 in the 卯 hour: the life palace is 子女 and the body palace 疾厄. */
  lemma LifeBodyExample()
    ensures CalcLifeBodyPalace(5, "卯") == Ok((Children, Health))
  {
  }
}
