/** The stem-branch (干支) calendar: the ten heavenly stems, the twelve
    earthly branches, the Na Yin table of the 60 stem-branch pairs, the
    Na Yin to bureau table, and the year, month, day and hour pairs.

    Dictionaries that are only ever looked up (NAYIN, WUXING_BUREAU,
    TG_BASE) are written as functions that match on their keys and return
    None for a missing key, which is what dict.get does before its default
    is applied. */
module GanZhi {
  import opened Outcomes
  import opened Modular

  const TianGan: string := "甲乙丙丁戊己庚辛壬癸"
  const DiZhi: string := "子丑寅卯辰巳午未申酉戌亥"

  /** NAYIN.get(gz): the Na Yin element of a stem-branch pair; every key
      of the table is a stem followed by a branch, so the table is written
      grouped by its first character. */
  function NaYinOf(gz: string): Option<string> {
    if |gz| != 2 then None else NaYinOfPair(gz[0], gz[1])
  }

  function NaYinOfPair(stem: char, branch: char): Option<string> {
    match stem
    case '甲' => (match branch case '子' => Some("海中金") case '寅' => Some("大溪水") case '辰' => Some("覆灯火") case '午' => Some("砂中金") case '申' => Some("泉中水") case '戌' => Some("山头火") case _ => None)
    case '乙' => (match branch case '丑' => Some("海中金") case '卯' => Some("大溪水") case '巳' => Some("覆灯火") case '未' => Some("砂中金") case '酉' => Some("泉中水") case '亥' => Some("山头火") case _ => None)
    case '丙' => (match branch case '子' => Some("涧下水") case '寅' => Some("炉中火") case '辰' => Some("沙中土") case '午' => Some("天河水") case '申' => Some("山下火") case '戌' => Some("屋上土") case _ => None)
    case '丁' => (match branch case '丑' => Some("涧下水") case '卯' => Some("炉中火") case '巳' => Some("沙中土") case '未' => Some("天河水") case '酉' => Some("山下火") case '亥' => Some("屋上土") case _ => None)
    case '戊' => (match branch case '子' => Some("霹雳火") case '寅' => Some("城头土") case '辰' => Some("大林木") case '午' => Some("天上火") case '申' => Some("大驿土") case '戌' => Some("平地木") case _ => None)
    case '己' => (match branch case '丑' => Some("霹雳火") case '卯' => Some("城头土") case '巳' => Some("大林木") case '未' => Some("天上火") case '酉' => Some("大驿土") case '亥' => Some("平地木") case _ => None)
    case '庚' => (match branch case '子' => Some("壁上土") case '寅' => Some("松柏木") case '辰' => Some("白蜡金") case '午' => Some("路旁土") case '申' => Some("石榴木") case '戌' => Some("钗钏金") case _ => None)
    case '辛' => (match branch case '丑' => Some("壁上土") case '卯' => Some("松柏木") case '巳' => Some("白蜡金") case '未' => Some("路旁土") case '酉' => Some("石榴木") case '亥' => Some("钗钏金") case _ => None)
    case '壬' => (match branch case '子' => Some("桑柘木") case '寅' => Some("金箔金") case '辰' => Some("长流水") case '午' => Some("杨柳木") case '申' => Some("剑锋金") case '戌' => Some("大海水") case _ => None)
    case '癸' => (match branch case '丑' => Some("桑柘木") case '卯' => Some("金箔金") case '巳' => Some("长流水") case '未' => Some("杨柳木") case '酉' => Some("剑锋金") case '亥' => Some("大海水") case _ => None)
    case _ => None
  }

  /** WUXING_BUREAU.get(nayin): the five-elements bureau (五行局) label. */
  function BureauOf(nayin: string): Option<string> {
    match nayin
    case "海中金" => Some("金四局")
    case "炉中火" => Some("火六局")
    case "大林木" => Some("木三局")
    case "路旁土" => Some("土五局")
    case "剑锋金" => Some("金四局")
    case "山头火" => Some("火六局")
    case "涧下水" => Some("水二局")
    case "城头土" => Some("土五局")
    case "白蜡金" => Some("金四局")
    case "杨柳木" => Some("木三局")
    case "泉中水" => Some("水二局")
    case "屋上土" => Some("土五局")
    case "霹雳火" => Some("火六局")
    case "松柏木" => Some("木三局")
    case "长流水" => Some("水二局")
    case "砂中金" => Some("金四局")
    case "山下火" => Some("火六局")
    case "平地木" => Some("木三局")
    case "壁上土" => Some("土五局")
    case "金箔金" => Some("金四局")
    case "覆灯火" => Some("火六局")
    case "天河水" => Some("水二局")
    case "大驿土" => Some("土五局")
    case "钗钏金" => Some("金四局")
    case "桑柘木" => Some("木三局")
    case "大溪水" => Some("水二局")
    case "沙中土" => Some("土五局")
    case "天上火" => Some("火六局")
    case "石榴木" => Some("木三局")
    case "大海水" => Some("水二局")
    case _ => None
  }

  /** TG_BASE.get(stem): the hour-stem base of get_hour_ganzhi. */
  function TgBaseOf(stem: char): Option<int> {
    match stem
    case '甲' => Some(1) case '乙' => Some(1) case '丙' => Some(3) case '丁' => Some(3)
    case '戊' => Some(5) case '己' => Some(5) case '庚' => Some(7) case '辛' => Some(7)
    case '壬' => Some(9) case '癸' => Some(9)
    case _ => None
  }

  /** TIAN_GAN.index(s) and DI_ZHI.index(s) succeed exactly for the
      one-character strings listed. */
  predicate IsStem(s: string) {
    |s| == 1 && s[0] in TianGan
  }

  predicate IsBranch(s: string) {
    |s| == 1 && s[0] in DiZhi
  }

  /** TIAN_GAN.index(c): the position of a stem. */
  function StemIndex(c: char): (i: int)
    requires c in TianGan
    ensures 0 <= i < 10 && TianGan[i] == c
  {
    match c
    case '甲' => 0 case '乙' => 1 case '丙' => 2 case '丁' => 3 case '戊' => 4
    case '己' => 5 case '庚' => 6 case '辛' => 7 case '壬' => 8 case '癸' => 9
  }

  /** DI_ZHI.index(c): the position of a branch. */
  function BranchIndex(c: char): (i: int)
    requires c in DiZhi
    ensures 0 <= i < 12 && DiZhi[i] == c
  {
    match c
    case '子' => 0 case '丑' => 1 case '寅' => 2 case '卯' => 3 case '辰' => 4 case '巳' => 5
    case '午' => 6 case '未' => 7 case '申' => 8 case '酉' => 9 case '戌' => 10 case '亥' => 11
  }

  /** The stems are listed without repetition: the index of the k-th is k. */
  lemma StemIndexOfStem(k: int)
    requires 0 <= k < 10
    ensures StemIndex(TianGan[k]) == k
  {
  }

  lemma BranchIndexOfBranch(k: int)
    requires 0 <= k < 12
    ensures BranchIndex(DiZhi[k]) == k
  {
  }

  /** The p-th pair of the sexagenary cycle, counting 甲子 as 0. */
  function CycleAt(p: int): string {
    [TianGan[p % 10], DiZhi[p % 12]]
  }

  lemma CycleIndices(p: int)
    ensures CycleAt(p)[0] in TianGan && CycleAt(p)[1] in DiZhi
    ensures StemIndex(CycleAt(p)[0]) == p % 10 && BranchIndex(CycleAt(p)[1]) == p % 12
  {
    StemIndexOfStem(p % 10);
    BranchIndexOfBranch(p % 12);
  }

  // --------------------------------------------------------- the tables

  /** Every stem followed by a branch of the same parity is a key of NAYIN. */
  lemma NaYinDefined(a: int, b: int)
    requires 0 <= a < 10 && 0 <= b < 12 && a % 2 == b % 2
    ensures NaYinOfPair(TianGan[a], DiZhi[b]).Some?
  {
  }

  /** No stem followed by a branch of the other parity is a key of NAYIN. */
  lemma NaYinUndefined(a: int, b: int)
    requires 0 <= a < 10 && 0 <= b < 12 && a % 2 != b % 2
    ensures NaYinOfPair(TianGan[a], DiZhi[b]).None?
  {
  }

  /** Only a stem followed by a branch is a key of NAYIN. */
  lemma NaYinKeyChars(stem: char, branch: char)
    ensures NaYinOfPair(stem, branch).Some? ==> stem in TianGan && branch in DiZhi
  {
  }

  /** Every Na Yin name is a key of WUXING_BUREAU, and its bureau label starts
      with the element character the Na Yin name ends with. */
  lemma NaYinHasBureau(stem: char, branch: char)
    ensures NaYinOfPair(stem, branch).Some? ==> BureauOf(NaYinOfPair(stem, branch).value).Some?
  {
  }

  lemma BureauElement(nayin: string)
    ensures BureauOf(nayin).Some? ==>
      |nayin| == 3 && |BureauOf(nayin).value| == 3 && BureauOf(nayin).value[0] == nayin[2]
  {
  }

  /** Only a stem followed by a branch of the same parity is a key of NAYIN. */
  lemma NaYinKeyShape(stem: char, branch: char)
    ensures NaYinOfPair(stem, branch).Some? ==>
      stem in TianGan && branch in DiZhi && StemIndex(stem) % 2 == BranchIndex(branch) % 2
  {
    NaYinKeyChars(stem, branch);
    if stem in TianGan && branch in DiZhi && StemIndex(stem) % 2 != BranchIndex(branch) % 2 {
      NaYinUndefined(StemIndex(stem), BranchIndex(branch));
    }
  }

  /** Every pair of the cycle is a key of NAYIN, its Na Yin name is a key of
      WUXING_BUREAU, and the bureau label starts with the element character
      the Na Yin name ends with. */
  lemma CycleInTables(p: int)
    ensures NaYinOf(CycleAt(p)).Some? && BureauOf(NaYinOf(CycleAt(p)).value).Some?
    ensures |NaYinOf(CycleAt(p)).value| == 3 && |BureauOf(NaYinOf(CycleAt(p)).value).value| == 3
    ensures BureauOf(NaYinOf(CycleAt(p)).value).value[0] == NaYinOf(CycleAt(p)).value[2]
  {
    var gz := CycleAt(p);
    ModParity(p);
    NaYinDefined(p % 10, p % 12);
    NaYinHasBureau(gz[0], gz[1]);
    BureauElement(NaYinOf(gz).value);
  }

  /** The pairs at cycle positions 2k and 2k+1 share one Na Yin. */
  lemma PairsShareNaYin(p: int)
    requires p % 2 == 0
    ensures NaYinOf(CycleAt(p)) == NaYinOf(CycleAt(p + 1))
  {
    ModParity(p);
    StepMod(p);
    var a, b := p % 10, p % 12;
    Mod10(a + 1, 0, a + 1);
    Mod12(b + 1, 0, b + 1);
    assert CycleAt(p + 1) == [TianGan[a + 1], DiZhi[b + 1]];
    NaYinPairRows(a, b);
  }

  lemma NaYinPairRows(a: int, b: int)
    requires 0 <= a < 10 && 0 <= b < 12 && a % 2 == 0 && b % 2 == 0
    ensures NaYinOfPair(TianGan[a], DiZhi[b]) == NaYinOfPair(TianGan[a + 1], DiZhi[b + 1])
  {
  }

  /** The keys of NAYIN are exactly the 60 pairs of the cycle. */
  lemma NaYinKeyIsCycle(s: string)
    ensures NaYinOf(s).Some? ==> exists p :: 0 <= p < 60 && s == CycleAt(p)
  {
    if NaYinOf(s).Some? {
      NaYinKeyShape(s[0], s[1]);
      var p := CyclePosition(StemIndex(s[0]), BranchIndex(s[1]));
      assert s == CycleAt(p);
    }
  }

  /** A stem followed by a branch is a key of NAYIN exactly when the stem
      index and the branch index have the same parity. */
  lemma NaYinKeyParity(a: int, b: int)
    requires 0 <= a < 10 && 0 <= b < 12
    ensures NaYinOf([TianGan[a], DiZhi[b]]).Some? <==> a % 2 == b % 2
  {
    if a % 2 == b % 2 {
      NaYinDefined(a, b);
    } else {
      NaYinUndefined(a, b);
    }
  }

  // ----------------------------------------------------------------- year

  datatype YearPair = YearPair(gz: string, bureau: string)

  /** get_year_ganzhi: the year's place in the 60-year cycle, counted from
      1864 (a 甲子 year), and the bureau label looked up through its Na Yin.
      Neither lookup ever falls back to its default ("土", "土五局"). */
  function YearGanZhi(year: int): (r: YearPair)
    ensures r.gz == CycleAt((year - 1864) % 60)
    ensures NaYinOf(r.gz).Some? && BureauOf(NaYinOf(r.gz).value) == Some(r.bureau)
    ensures |r.bureau| == 3 && r.bureau[0] == NaYinOf(r.gz).value[2]
  {
    var offset := year - 1900;
    var tg := TianGan[(offset % 10 + 6) % 10];
    var dz := DiZhi[(offset % 12 + 0) % 12];
    var gz := [tg, dz];
    YearPosition(year);
    CycleInTables((year - 1864) % 60);
    var nayin := match NaYinOf(gz) case Some(n) => n case None => "土";
    var bureau := match BureauOf(nayin) case Some(b) => b case None => "土五局";
    YearPair(gz, bureau)
  }

  /** 1864 is a 甲子 year, and the source's count from 1900 (a 庚子 year)
      agrees with the count from 1864. */
  lemma YearPosition(year: int)
    ensures (year - 1864) % 60 % 10 == ((year - 1900) % 10 + 6) % 10
    ensures (year - 1864) % 60 % 12 == ((year - 1900) % 12 + 0) % 12
  {
    ModOf60(year - 1864);
    var y := year - 1900;
    var q, r := y / 10, y % 10;
    if r < 4 {
      Mod10(year - 1864, q + 3, r + 6);
    } else {
      Mod10(year - 1864, q + 4, r - 4);
    }
    Shift12(y, 3);
  }

  /** The year pair and bureau repeat every 60 years, for years before 1900
      too (Python's % is never negative). */
  lemma YearPeriodic(year: int)
    ensures YearGanZhi(year + 60) == YearGanZhi(year)
  {
    Shift60(year - 1864, 1);
  }

  /** 1900 is a 庚子 year of the earth bureau. */
  lemma Year1900()
    ensures YearGanZhi(1900) == YearPair("庚子", "土五局")
  {
    var r := YearGanZhi(1900);
    assert r.gz == CycleAt(36) == "庚子";
  }

  // ---------------------------------------------------------------- month

  /** get_month_ganzhi. The first character of the year pair must be a stem
      (ValueError otherwise; an empty year pair is an IndexError). Month 1
      sits on 寅 and the branch advances one per month; the stem starts two
      after the year stem. */
  function MonthGanZhi(yearGz: string, month: int): (r: Result<string>)
    ensures |yearGz| == 0 ==> r == Err(IndexError)
    ensures |yearGz| > 0 && yearGz[0] !in TianGan ==> r == Err(ValueError(NotAStem))
    ensures |yearGz| > 0 && yearGz[0] in TianGan ==>
      r == Ok([TianGan[(StemIndex(yearGz[0]) + month + 1) % 10], DiZhi[(month + 1) % 12]])
  {
    if |yearGz| == 0 then Err(IndexError)
    else if yearGz[0] !in TianGan then Err(ValueError(NotAStem))
    else
      var tgIdx := StemIndex(yearGz[0]);
      var idx := (tgIdx + 2 + month - 1) % 10;
      var dzIdx := (month + 1) % 12;
      Ok([TianGan[idx], DiZhi[dzIdx]])
  }

  /** Month 1 is a 寅 month and month 12 a 丑 month. */
  lemma MonthBranchEnds(yearGz: string)
    requires |yearGz| > 0 && yearGz[0] in TianGan
    ensures MonthGanZhi(yearGz, 1).value[1] == '寅'
    ensures MonthGanZhi(yearGz, 12).value[1] == '丑'
  {
  }

  /** For a 甲 year the first month is 丙寅; for an 乙 year it is 丁寅. */
  lemma MonthFirstExamples()
    ensures MonthGanZhi("甲子", 1) == Ok("丙寅")
    ensures MonthGanZhi("乙丑", 1) == Ok("丁寅")
  {
  }

  /** The month branch repeats every 12 months and the whole pair every 60. */
  lemma MonthPeriodic(yearGz: string, month: int)
    requires |yearGz| > 0 && yearGz[0] in TianGan
    ensures MonthGanZhi(yearGz, month + 12).value[1] == MonthGanZhi(yearGz, month).value[1]
    ensures MonthGanZhi(yearGz, month + 60) == MonthGanZhi(yearGz, month)
  {
    var s := StemIndex(yearGz[0]);
    Shift12(month + 1, 1);
    Shift10(s + month + 1, 6);
    Shift12(month + 1, 5);
  }

  /** Only the first character of the year pair matters. */
  lemma MonthUsesYearStemOnly(yearGz: string, month: int)
    requires |yearGz| > 0
    ensures MonthGanZhi(yearGz, month) == MonthGanZhi(yearGz[..1], month)
  {
  }

  /** The month pair is one of the 60 cycle pairs (a key of NAYIN) exactly
      when the year stem is a yang stem (甲 丙 戊 庚 壬, even index). For a
      yin year the source builds pairs such as 丁寅 that have no Na Yin. */
  lemma MonthPairInCycle(yearGz: string, month: int)
    requires |yearGz| > 0 && yearGz[0] in TianGan
    ensures NaYinOf(MonthGanZhi(yearGz, month).value).Some? <==> StemIndex(yearGz[0]) % 2 == 0
  {
    var s := StemIndex(yearGz[0]);
    MonthParity(s, month);
    NaYinKeyParity((s + month + 1) % 10, (month + 1) % 12);
  }

  lemma MonthParity(s: int, month: int)
    ensures ((s + month + 1) % 10) % 2 == ((month + 1) % 12) % 2 <==> s % 2 == 0
  {
    ModParity(s + month + 1);
    ModParity(month + 1);
    ParityOfSum(s, month + 1);
  }

  // ------------------------------------------------------------------ day

  /** get_day_ganzhi, with the date given as its day count from 1899-12-22
      (a 甲子 day). The pair is the day count's place in the 60-day cycle. */
  function DayGanZhi(days: int): (gz: string)
    ensures gz == CycleAt(days % 60)
    ensures NaYinOf(gz).Some?
  {
    var tg := TianGan[days % 10];
    var dz := DiZhi[days % 12];
    ModOf60(days);
    CycleInTables(days % 60);
    [tg, dz]
  }

  lemma DayEpoch()
    ensures DayGanZhi(0) == "甲子"
  {
  }

  lemma DayPeriodic(days: int)
    ensures DayGanZhi(days + 60) == DayGanZhi(days)
  {
    Shift60(days, 1);
  }

  /** The next day is the next position of the cycle. */
  lemma DayStep(days: int)
    ensures DayGanZhi(days + 1) == CycleAt(days % 60 + 1)
  {
    ModOf60(days);
    StepMod(days);
    StepMod(days % 60);
  }

  // ----------------------------------------------------------------- hour

  /** The stem base of a day pair: TG_BASE.get(day_gz[0], 1). */
  function DayStemBase(dayGz: string): (base: int)
    requires |dayGz| > 0
    ensures base % 2 == 1
  {
    match TgBaseOf(dayGz[0]) case Some(b) => b case None => 1
  }

  /** get_hour_ganzhi. A non-branch hour is a ValueError and an empty day
      pair an IndexError; otherwise the result is the hour branch preceded
      by a stem counted from the day stem's base. */
  function HourGanZhi(dayGz: string, hourZhi: string): (r: Result<string>)
    ensures !IsBranch(hourZhi) ==> r == Err(ValueError(NotABranch))
    ensures IsBranch(hourZhi) && |dayGz| == 0 ==> r == Err(IndexError)
    ensures IsBranch(hourZhi) && |dayGz| > 0 ==>
      r == Ok([TianGan[(DayStemBase(dayGz) + BranchIndex(hourZhi[0])) % 10], hourZhi[0]])
  {
    if !IsBranch(hourZhi) then Err(ValueError(NotABranch))
    else
      var hzIdx := BranchIndex(hourZhi[0]);
      if |dayGz| == 0 then Err(IndexError)
      else
        var base := DayStemBase(dayGz);
        var tg := TianGan[(base + hzIdx) % 10];
        assert [tg] + hourZhi == [tg, hourZhi[0]];
        Ok([tg] + hourZhi)
  }

  /** Day stems that share a base (甲/乙, 丙/丁, ...) give the same hour pair. */
  lemma HourSharedBase(d1: string, d2: string, hourZhi: string)
    requires |d1| > 0 && |d2| > 0 && DayStemBase(d1) == DayStemBase(d2)
    ensures HourGanZhi(d1, hourZhi) == HourGanZhi(d2, hourZhi)
  {
  }

  lemma TgBaseKeys(c: char)
    ensures TgBaseOf(c).Some? ==> c in TianGan
  {
  }

  /** A day pair whose first character is not a stem counts as base 1, the
      base of 甲. */
  lemma HourUnknownStem(dayGz: string, hourZhi: string)
    requires |dayGz| > 0 && dayGz[0] !in TianGan
    ensures HourGanZhi(dayGz, hourZhi) == HourGanZhi("甲", hourZhi)
  {
    TgBaseKeys(dayGz[0]);
  }

  /** Every TG_BASE value is odd, so the hour stem and the hour branch never
      have the same parity: the hour pair is never one of the 60 cycle pairs. */
  lemma HourPairNotInCycle(dayGz: string, hourZhi: string)
    requires |dayGz| > 0 && IsBranch(hourZhi)
    ensures NaYinOf(HourGanZhi(dayGz, hourZhi).value).None?
  {
    var b := BranchIndex(hourZhi[0]);
    HourParity(DayStemBase(dayGz), b);
    NaYinKeyParity((DayStemBase(dayGz) + b) % 10, b);
  }

  lemma HourParity(base: int, b: int)
    requires base % 2 == 1
    ensures ((base + b) % 10) % 2 != b % 2
  {
    ModParity(base + b);
    ParityOfSum(base, b);
  }
}
