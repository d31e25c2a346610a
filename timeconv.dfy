/** The hour helpers of the calculator module (parse_hour and the
    TimeConverter class) and the two ways it reads the bureau number out of
    a bureau label such as "金四局": the inline code of calculate and
    TimeConverter.extract_bureau_number. */
module TimeConversion {
  import opened Outcomes
  import opened Modular
  import opened GanZhi
  import opened Palaces

  // ----------------------------------------------------------------- hours

  /** parse_hour: an int is returned as it is; a branch name becomes twice
      its index (子 = 0, 丑 = 2, …); any other string is a ValueError. */
  function ParseHour(hour: HourInput): (r: Result<int>)
    ensures hour.IntHour? ==> r == Ok(hour.h)
    ensures hour.TextHour? ==> (r.Ok? <==> IsBranch(hour.s))
    ensures hour.TextHour? && r.Ok? ==>
      0 <= r.value < 24 && r.value % 2 == 0 && DiZhi[r.value / 2] == hour.s[0]
    ensures r.Err? ==> r.error == ValueError(BadHourFormat)
  {
    match hour
    case IntHour(h) => Ok(h)
    case TextHour(s) =>
      if IsBranch(s) then
        var k := BranchIndex(s[0]);
        Mod2(2 * k, k, 0);
        Ok(2 * k)
      else Err(ValueError(BadHourFormat))
  }

  /** Whatever get_hour_zhi accepts, parse_hour accepts too, and the hour it
      returns falls back into the same branch. */
  lemma ParseHourRoundTrip(hour: HourInput)
    requires GetHourZhi(hour).Ok?
    ensures ParseHour(hour).Ok?
    ensures GetHourZhi(IntHour(ParseHour(hour).value)) == GetHourZhi(hour)
  {
    if hour.TextHour? {
      var k := BranchIndex(hour.s[0]);
      HourWindows(k);
      assert [DiZhi[k]] == hour.s;
    }
  }

  /** TimeConverter.to_24h_format: an int in 0..23 is returned, a branch
      name becomes twice its index, anything else is a ValueError. */
  function To24hFormat(time: HourInput): (r: Result<int>)
    ensures r.Ok? ==> 0 <= r.value < 24
    ensures r.Ok? <==> (time.IntHour? && 0 <= time.h <= 23) || (time.TextHour? && IsBranch(time.s))
    ensures r.Ok? ==> r == ParseHour(time)
    ensures r.Err? ==> r.error == ValueError(BadHourFormat)
  {
    match time
    case IntHour(h) => if 0 <= h <= 23 then Ok(h) else Err(ValueError(BadHourFormat))
    case TextHour(s) =>
      if IsBranch(s) then Ok(2 * BranchIndex(s[0])) else Err(ValueError(BadHourFormat))
  }

  /** hour_zhi_map: the branch of each hour of the day. */
  function HourZhiMap(k: int): (z: Option<string>)
    ensures z.Some? <==> 0 <= k < 24
  {
    match k
    case 23 => Some("子") case 0 => Some("子") case 1 => Some("丑") case 2 => Some("丑")
    case 3 => Some("寅") case 4 => Some("寅") case 5 => Some("卯") case 6 => Some("卯")
    case 7 => Some("辰") case 8 => Some("辰") case 9 => Some("巳") case 10 => Some("巳")
    case 11 => Some("午") case 12 => Some("午") case 13 => Some("未") case 14 => Some("未")
    case 15 => Some("申") case 16 => Some("申") case 17 => Some("酉") case 18 => Some("酉")
    case 19 => Some("戌") case 20 => Some("戌") case 21 => Some("亥") case 22 => Some("亥")
    case _ => None
  }

  /** The table agrees with get_hour_zhi's formula hour by hour. */
  lemma HourZhiMapAgrees(k: int)
    requires 0 <= k < 24
    ensures HourZhiMap(k) == Some([DiZhi[((k + 1) % 24) / 2]])
  {
  }

  /** TimeConverter.to_di_zhi (and the same table inlined in calculate):
      hour % 24 looked up, with "子" as the default. The default is never
      taken, and the result is get_hour_zhi's branch for every int hour,
      negative ones included. */
  function ToDiZhi(hour: int): (z: string)
    ensures HourZhiMap(hour % 24).Some?
    ensures IsBranch(z)
    ensures GetHourZhi(IntHour(hour)) == Ok(z)
  {
    HourShift(hour);
    HourZhiMapAgrees(hour % 24);
    HourZhiMap(hour % 24).value
  }

  /** The hour after hour, taken mod 24, is the hour after hour % 24. */
  lemma HourShift(hour: int)
    ensures (hour + 1) % 24 == (hour % 24 + 1) % 24
  {
    var k := hour % 24;
    if k < 23 {
      Mod24(hour + 1, hour / 24, k + 1);
    } else {
      Mod24(hour + 1, hour / 24 + 1, 0);
    }
  }

  /** to_di_zhi undoes to_24h_format on branch names. */
  lemma {:induction false} DiZhiRoundTrip(s: string)
    requires IsBranch(s)
    ensures To24hFormat(TextHour(s)).Ok?
    ensures ToDiZhi(To24hFormat(TextHour(s)).value) == s
  {
    var k := BranchIndex(s[0]);
    assert To24hFormat(TextHour(s)) == Ok(2 * k);
    HourWindows(k);
    assert GetHourZhi(IntHour(2 * k)) == Ok(ToDiZhi(2 * k));
    assert [DiZhi[k]] == s;
  }

  // ------------------------------------------------------- bureau numbers

  /** str.isdigit, for the ASCII digits. */
  predicate IsDigit(c: char) {
    '0' as int <= c as int <= '9' as int
  }

  /** ''.join(filter(str.isdigit, s)): the digits of s, in order. */
  function Digits(s: string): (d: string)
    ensures |d| <= |s|
    ensures forall i :: 0 <= i < |d| ==> IsDigit(d[i])
    ensures d == [] <==> forall i :: 0 <= i < |s| ==> !IsDigit(s[i])
  {
    if s == [] then []
    else
      var rest := Digits(s[1..]);
      assert forall i :: 1 <= i < |s| ==> s[i] == s[1..][i - 1];
      if IsDigit(s[0]) then [s[0]] + rest else rest
  }

  /** int(d) of a string of ASCII digits: its decimal value. */
  function DigitsValue(d: string): (n: int)
    requires forall i :: 0 <= i < |d| ==> IsDigit(d[i])
    ensures n >= 0
  {
    if d == [] then 0
    else
      var c := d[|d| - 1];
      assert IsDigit(c);
      10 * DigitsValue(d[..|d| - 1]) + (c as int - '0' as int)
  }

  /** str(n) of a natural number: its decimal digits. */
  function Decimal(n: nat): (d: string)
    ensures |d| >= 1
    ensures forall i :: 0 <= i < |d| ==> IsDigit(d[i])
  {
    var last := ('0' as int + n % 10) as char;
    if n < 10 then [last] else Decimal(n / 10) + [last]
  }

  /** int(str(n)) == n. */
  lemma {:induction false} DecimalRoundTrip(n: nat)
    ensures DigitsValue(Decimal(n)) == n
  {
    var d := Decimal(n);
    if n >= 10 {
      DecimalRoundTrip(n / 10);
      assert d[..|d| - 1] == Decimal(n / 10);
    }
  }

  /** The chinese_numerals table. */
  function NumeralOf(c: char): (v: Option<int>)
    ensures v.Some? ==> 1 <= v.value <= 10
  {
    match c
    case '一' => Some(1) case '二' => Some(2) case '三' => Some(3) case '四' => Some(4)
    case '五' => Some(5) case '六' => Some(6) case '七' => Some(7) case '八' => Some(8)
    case '九' => Some(9) case '十' => Some(10)
    case _ => None
  }

  /** The value of the first character of s that is a Chinese numeral. */
  function FirstNumeral(s: string): (v: Option<int>)
    ensures v.None? <==> forall i :: 0 <= i < |s| ==> NumeralOf(s[i]).None?
    ensures v.Some? ==> 1 <= v.value <= 10
  {
    if s == [] then None
    else
      assert forall i :: 1 <= i < |s| ==> s[i] == s[1..][i - 1];
      match NumeralOf(s[0])
      case Some(n) => Some(n)
      case None => FirstNumeral(s[1..])
  }

  /** The numeral at the first index where one occurs is the value
      FirstNumeral returns. */
  lemma {:induction false} FirstNumeralAt(s: string, i: int)
    requires 0 <= i < |s| && NumeralOf(s[i]).Some?
    requires forall j :: 0 <= j < i ==> NumeralOf(s[j]).None?
    ensures FirstNumeral(s) == NumeralOf(s[i])
  {
    if i > 0 {
      assert forall j :: 0 <= j < i - 1 ==> s[1..][j] == s[j + 1];
      FirstNumeralAt(s[1..], i - 1);
    }
  }

  /** The bureau number as calculate reads it inline: an empty label is a
      ValueError; otherwise the ASCII digits of the label, or failing those
      the value of its first Chinese numeral (written out with str and read
      back with int); a label with neither is a ValueError. */
  function InlineBureauNumber(bureau: string): (r: Result<int>)
    ensures bureau == [] ==> r == Err(ValueError(EmptyBureau))
    ensures bureau != [] && Digits(bureau) != [] ==> r == Ok(DigitsValue(Digits(bureau)))
    ensures bureau != [] && Digits(bureau) == [] && FirstNumeral(bureau).Some? ==>
      r == Ok(FirstNumeral(bureau).value)
    ensures bureau != [] && Digits(bureau) == [] && FirstNumeral(bureau).None? ==>
      r == Err(ValueError(NoBureauDigit))
  {
    if bureau == [] then Err(ValueError(EmptyBureau))
    else
      var digits := Digits(bureau);
      if digits != [] then Ok(DigitsValue(digits))
      else match FirstNumeral(bureau)
        case Some(n) => DecimalRoundTrip(n); Ok(DigitsValue(Decimal(n)))
        case None => Err(ValueError(NoBureauDigit))
  }

  /** wuxing_map, in its iteration order. */
  const ElementDefaults: seq<(char, int)> := [('金', 4), ('木', 3), ('水', 2), ('火', 6), ('土', 5)]

  /** The number of the first entry of ds whose element occurs in the
      label, or a ValueError when none does. */
  function DefaultFrom(bureau: string, ds: seq<(char, int)>): (r: Result<int>)
    ensures r.Ok? <==> exists i :: 0 <= i < |ds| && ds[i].0 in bureau
    ensures r.Err? ==> r.error == ValueError(NoBureauElement)
  {
    if ds == [] then Err(ValueError(NoBureauElement))
    else
      assert forall i :: 1 <= i < |ds| ==> ds[i] == ds[1..][i - 1];
      if ds[0].0 in bureau then Ok(ds[0].1)
      else DefaultFrom(bureau, ds[1..])
  }

  /** The entry at the first index whose element occurs in the label gives
      DefaultFrom's number. */
  lemma {:induction false} DefaultAt(bureau: string, ds: seq<(char, int)>, i: int)
    requires 0 <= i < |ds| && ds[i].0 in bureau
    requires forall j :: 0 <= j < i ==> ds[j].0 !in bureau
    ensures DefaultFrom(bureau, ds) == Ok(ds[i].1)
  {
    if i > 0 {
      assert forall j :: 0 <= j < i - 1 ==> ds[1..][j] == ds[j + 1];
      DefaultAt(bureau, ds[1..], i - 1);
    }
  }

  /** What extract_bureau_number returns: the ASCII digits as a number;
      failing those the first Chinese numeral; failing that the number of
      the first element of wuxing_map found in the label; otherwise a
      ValueError. */
  function ExtractSpec(bureau: string): (r: Result<int>)
    ensures Digits(bureau) != [] ==> r == Ok(DigitsValue(Digits(bureau)))
    ensures Digits(bureau) == [] && FirstNumeral(bureau).Some? ==> r == Ok(FirstNumeral(bureau).value)
    ensures Digits(bureau) == [] && FirstNumeral(bureau).None? ==> r == DefaultFrom(bureau, ElementDefaults)
  {
    var digits := Digits(bureau);
    if digits != [] then Ok(DigitsValue(digits))
    else match FirstNumeral(bureau)
      case Some(n) => Ok(n)
      case None => DefaultFrom(bureau, ElementDefaults)
  }

  /** TimeConverter.extract_bureau_number. */
  method ExtractBureauNumber(bureau: string) returns (r: Result<int>)
    ensures r == ExtractSpec(bureau)
  {
    var digits := Digits(bureau);
    if digits != [] {
      return Ok(DigitsValue(digits));
    }
    for i := 0 to |bureau|
      invariant forall j :: 0 <= j < i ==> NumeralOf(bureau[j]).None?
    {
      if NumeralOf(bureau[i]).Some? {
        FirstNumeralAt(bureau, i);
        return Ok(NumeralOf(bureau[i]).value);
      }
    }
    for k := 0 to |ElementDefaults|
      invariant DefaultFrom(bureau, ElementDefaults) == DefaultFrom(bureau, ElementDefaults[k..])
    {
      assert ElementDefaults[k..][1..] == ElementDefaults[k + 1..];
      if ElementDefaults[k].0 in bureau {
        return Ok(ElementDefaults[k].1);
      }
    }
    return Err(ValueError(NoBureauElement));
  }

  /** The five bureau labels a year can have: an element, the numeral of
      its bureau, and 局. */
  predicate IsBureauLabel(b: string) {
    |b| == 3 && b[2] == '局' && b[0] in "金木水火土" && NumeralOf(b[1]) == Some(ElementNumber(b[0]))
  }

  /** The bureau number of each element: 金 4, 木 3, 水 2, 火 6, 土 5. */
  function ElementNumber(e: char): (n: int)
    ensures 2 <= n <= 6
  {
    match e case '金' => 4 case '木' => 3 case '水' => 2 case '火' => 6 case _ => 5
  }

  /** WUXING_BUREAU gives only the five labels. */
  lemma BureauOfLabels(nayin: string)
    ensures BureauOf(nayin).Some? ==> IsBureauLabel(BureauOf(nayin).value)
  {
  }

  /** Each label reads as its element's number inline, and the same number
      comes out of extract_bureau_number and of its element default table,
      so for a real label that table is never needed. */
  lemma LabelNumbers(b: string)
    requires IsBureauLabel(b)
    ensures InlineBureauNumber(b) == Ok(ElementNumber(b[0]))
    ensures ExtractSpec(b) == InlineBureauNumber(b)
    ensures DefaultFrom(b, ElementDefaults) == InlineBureauNumber(b)
  {
    var e := b[0];
    assert b == [e, b[1], '局'];
    LabelShape(e, b[1]);
    var i := if e == '金' then 0 else if e == '木' then 1 else if e == '水' then 2 else if e == '火' then 3 else 4;
    assert ElementDefaults[i].0 == e && ElementDefaults[i].1 == ElementNumber(e);
    assert forall j :: 0 <= j < i ==> ElementDefaults[j].0 !in b;
    DefaultAt(b, ElementDefaults, i);
  }

  /** A label made of an element, a numeral and 局 has no ASCII digit and
      reads as its numeral. */
  lemma LabelShape(e: char, n: char)
    requires e in "金木水火土" && NumeralOf(n).Some?
    ensures Digits([e, n, '局']) == []
    ensures FirstNumeral([e, n, '局']) == NumeralOf(n)
  {
    FirstNumeralAt([e, n, '局'], 1);
  }

  /** Every year's bureau label gives a bureau number in 2..6. */
  lemma YearBureauNumber(year: int)
    ensures IsBureauLabel(YearGanZhi(year).bureau)
    ensures InlineBureauNumber(YearGanZhi(year).bureau).Ok?
    ensures 2 <= InlineBureauNumber(YearGanZhi(year).bureau).value <= 6
  {
    var yp := YearGanZhi(year);
    BureauOfLabels(NaYinOf(yp.gz).value);
    LabelNumbers(yp.bureau);
  }

  /** Where the inline reading succeeds on a non-empty label,
      extract_bureau_number agrees with it; a label with an element but no
      number tells the two apart. */
  lemma InlineAgreesExtract(b: string)
    requires InlineBureauNumber(b).Ok?
    ensures ExtractSpec(b) == InlineBureauNumber(b)
  {
  }

  /** "金局" has no number: calculate rejects it, extract_bureau_number
      falls back to 金's 4. */
  lemma ElementOnlyLabel()
    ensures InlineBureauNumber("金局") == Err(ValueError(NoBureauDigit))
    ensures ExtractSpec("金局") == Ok(4)
  {
    var b := "金局";
    assert Digits(b) == [];
    assert FirstNumeral(b) == None;
    assert '金' in b;
  }
}
