/** NumerologyAnalyzer: the life number (a repeated digit sum of the birth
    date written as digits) and the two-digit "magnetic field" patterns
    (数字磁场) found in that date string. */
module Numerology {
  import opened Outcomes
  import opened TimeConversion

  // ------------------------------------------------------- the date string

  /** str(n) of a Python int: a minus sign for a negative number. */
  function PyStr(n: int): (s: string)
    ensures |s| >= 1
    ensures n >= 0 ==> s == Decimal(n)
    ensures n < 0 ==> s == "-" + Decimal(-n)
  {
    if n >= 0 then Decimal(n) else "-" + Decimal(-n)
  }

  /** f"{n:02d}": at least two characters, a zero in front of a single
      digit; a negative number keeps its sign and is not zero-padded
      further (-5 gives "-5"). */
  function Pad2(n: int): (s: string)
    ensures |s| >= 2
    ensures 0 <= n < 10 ==> s == ['0', ('0' as int + n) as char]
    ensures !(0 <= n < 10) ==> s == PyStr(n)
  {
    if 0 <= n < 10 then "0" + Decimal(n)
    else
      assert n >= 10 ==> |Decimal(n)| >= 2 by {
        if n >= 10 {
          assert Decimal(n) == Decimal(n / 10) + [('0' as int + n % 10) as char];
        }
      }
      PyStr(n)
  }

  /** f"{year}{month:02d}{day:02d}". */
  function DateString(year: int, month: int, day: int): (s: string)
    ensures |s| >= 5
  {
    PyStr(year) + Pad2(month) + Pad2(day)
  }

  // ---------------------------------------------------------- life number

  predicate AllDigits(s: string) {
    forall i :: 0 <= i < |s| ==> IsDigit(s[i])
  }

  function DigitValue(c: char): (v: int)
    requires IsDigit(c)
    ensures 0 <= v <= 9
  {
    c as int - '0' as int
  }

  /** sum(int(d) for d in s) for a string of digits. */
  function DigitSum(s: string): (n: nat)
    requires AllDigits(s)
  {
    if s == [] then 0 else DigitSum(s[..|s| - 1]) + DigitValue(s[|s| - 1])
  }

  /** The digital root: 0 for 0, otherwise the remainder by 9 with 9 in
      place of 0. */
  function DigitalRoot(n: nat): (r: nat)
    ensures r <= 9
    ensures n > 0 ==> 1 <= r && (r - n) % 9 == 0
    ensures n == 0 ==> r == 0
  {
    if n == 0 then 0 else (n - 1) % 9 + 1
  }

  /** NumerologyAnalyzer.calculate_life_number. Every character of the date
      string is read with int(...), so a negative year or month or day
      fails on its minus sign with a ValueError; otherwise the digits are
      summed, and the sum summed again while it exceeds 9. The result is
      the digital root of the first sum. */
  method CalculateLifeNumber(year: int, month: int, day: int) returns (r: Result<int>)
    ensures r.Ok? <==> AllDigits(DateString(year, month, day))
    ensures r.Err? ==> r.error == ValueError(BadDigit)
    ensures r.Ok? ==> 0 <= r.value <= 9 && r.value == DigitalRoot(DigitSum(DateString(year, month, day)))
  {
    r := LifeNumberOf(DateString(year, month, day));
  }

  /** The loops of calculate_life_number over the date string. */
  method LifeNumberOf(str: string) returns (r: Result<int>)
    ensures r.Ok? <==> AllDigits(str)
    ensures r.Err? ==> r.error == ValueError(BadDigit)
    ensures r.Ok? ==> 0 <= r.value <= 9 && r.value == DigitalRoot(DigitSum(str))
  {
    for i := 0 to |str|
      invariant forall k :: 0 <= k < i ==> IsDigit(str[k])
    {
      if !IsDigit(str[i]) {
        return Err(ValueError(BadDigit));
      }
    }
    var s: nat := DigitSum(str);
    while s > 9
      invariant DigitalRoot(s) == DigitalRoot(DigitSum(str))
      decreases s
    {
      s := Resum(s);
    }
    return Ok(s);
  }

  /** sum(int(d) for d in str(s)): a smaller number with the same digital
      root, for a number of two or more digits. */
  function Resum(s: nat): (t: nat)
    requires s > 9
    ensures t < s && DigitalRoot(t) == DigitalRoot(s)
  {
    DecimalDigitSum(s);
    DigitSum(Decimal(s))
  }

  lemma Mod9(x: int, q: int, r: int)
    requires 0 <= r < 9 && x == 9 * q + r
    ensures x % 9 == r
  {
  }

  lemma Shift9(x: int, c: int)
    ensures (x + 9 * c) % 9 == x % 9
  {
    Mod9(x + 9 * c, x / 9 + c, x % 9);
  }

  /** Summing the digits of a number keeps its remainder by 9, is zero only
      for zero, and makes every number of two or more digits smaller. */
  lemma {:induction false} DecimalDigitSum(n: nat)
    ensures DigitSum(Decimal(n)) % 9 == n % 9
    ensures DigitSum(Decimal(n)) == 0 <==> n == 0
    ensures DigitSum(Decimal(n)) <= n
    ensures n >= 10 ==> DigitSum(Decimal(n)) < n
    ensures DigitalRoot(DigitSum(Decimal(n))) == DigitalRoot(n)
  {
    var d := Decimal(n);
    if n < 10 {
      assert d == [('0' as int + n) as char];
      assert d[..0] == [];
      assert DigitSum(d) == n;
    } else {
      var a, last := n / 10, n % 10;
      DecimalDigitSum(a);
      assert d[..|d| - 1] == Decimal(a);
      var s := DigitSum(Decimal(a));
      assert DigitSum(d) == s + last;
      assert s + last == n + 9 * (s / 9 - a - a / 9);
      Shift9(n, s / 9 - a - a / 9);
    }
    RootOfRemainder(DigitSum(d), n);
  }

  /** Two positive numbers, or two zeros, with one remainder by 9 have one
      digital root. */
  lemma RootOfRemainder(x: nat, y: nat)
    requires x % 9 == y % 9 && (x == 0 <==> y == 0)
    ensures DigitalRoot(x) == DigitalRoot(y)
  {
    if x > 0 {
      var q, r := (x - 1) / 9, (x - 1) % 9;
      var q2, r2 := (y - 1) / 9, (y - 1) % 9;
      Mod9(x, q + (r + 1) / 9, (r + 1) % 9);
      Mod9(y, q2 + (r2 + 1) / 9, (r2 + 1) % 9);
    }
  }

  /** The digit sum of two strings written together is the sum of theirs. */
  lemma {:induction false} DigitSumConcat(a: string, b: string)
    requires AllDigits(a) && AllDigits(b)
    ensures AllDigits(a + b) && DigitSum(a + b) == DigitSum(a) + DigitSum(b)
  {
    assert forall i :: 0 <= i < |a + b| ==> (a + b)[i] == if i < |a| then a[i] else b[i - |a|];
    if b == [] {
      assert a + b == a;
    } else {
      var b0 := b[..|b| - 1];
      DigitSumConcat(a, b0);
      assert (a + b)[..|a + b| - 1] == a + b0;
      assert (a + b)[|a + b| - 1] == b[|b| - 1];
    }
  }

  /** For a positive year and a month and day that are not negative the date
      string is all digits, and the life number lies in 1..9. */
  lemma LifeNumberRange(year: int, month: int, day: int)
    requires year >= 1 && month >= 0 && day >= 0
    ensures AllDigits(DateString(year, month, day))
    ensures 1 <= DigitalRoot(DigitSum(DateString(year, month, day))) <= 9
  {
    var y, m, d := Decimal(year), Pad2(month), Pad2(day);
    PadDigits(month);
    PadDigits(day);
    DigitSumConcat(y, m);
    DigitSumConcat(y + m, d);
    DecimalDigitSum(year);
  }

  lemma PadDigits(n: int)
    requires n >= 0
    ensures AllDigits(Pad2(n))
  {
  }

  /** A negative year puts a minus sign in the date string, which int(...)
      rejects. */
  lemma NegativeYearRejected(year: int, month: int, day: int)
    requires year < 0
    ensures !AllDigits(DateString(year, month, day))
  {
    assert DateString(year, month, day)[0] == '-';
  }

  /** 1990-07-07 is "19900707": the digits add up to 33, and 3 + 3 = 6. */
  lemma LifeNumberExample()
    ensures DateString(1990, 7, 7) == "19900707"
    ensures DigitSum("19900707") == 33
    ensures DigitalRoot(33) == 6
  {
    DateExample();
    DigitSumExample();
  }

  lemma DateExample()
    ensures DateString(1990, 7, 7) == "19900707"
  {
    assert Decimal(1) == "1";
    assert Decimal(19) == "19";
    assert Decimal(199) == "199";
    assert Decimal(1990) == "1990";
    assert Pad2(7) == "07";
  }

  lemma DigitSumExample()
    ensures DigitSum("19900707") == 33
  {
    var s := "19900707";
    assert s[..7][..6] == s[..6] && s[..6][..5] == s[..5] && s[..5][..4] == s[..4];
    assert s[..4][..3] == s[..3] && s[..3][..2] == s[..2] && s[..2][..1] == s[..1] && s[..1][..0] == [];
    assert DigitSum(s[..1]) == 1;
    assert DigitSum(s[..2]) == 10;
    assert DigitSum(s[..3]) == 19;
    assert DigitSum(s[..4]) == 19;
    assert DigitSum(s[..5]) == 19;
    assert DigitSum(s[..6]) == 26;
    assert DigitSum(s[..7]) == 26;
    assert s[..8] == s;
  }

  // ------------------------------------------------------ magnetic fields

  /** The four fields of DIGITAL_PATTERNS, in their order. */
  datatype Field = TianYi | YanNian | JueMing | ShengQi {
    function Name(): string {
      match this case TianYi => "天医" case YanNian => "延年" case JueMing => "绝命" case ShengQi => "生气"
    }

    function Wuxing(): string {
      match this case TianYi => "火" case YanNian => "金" case JueMing => "水" case ShengQi => "木"
    }

    function Desc(): string {
      match this
      case TianYi => "主财富、婚姻" case YanNian => "主能力、责任"
      case JueMing => "主投资、风险" case ShengQi => "主贵人、机会"
    }

    /** info["combos"]: whether the field's combos hold the digits a, b. */
    predicate HasPair(a: char, b: char) {
      match this
      case TianYi =>
        (a == '1' && b == '3') || (a == '3' && b == '1') || (a == '6' && b == '8') || (a == '8' && b == '6')
        || (a == '4' && b == '9') || (a == '9' && b == '4') || (a == '2' && b == '7') || (a == '7' && b == '2')
      case YanNian =>
        (a == '1' && b == '9') || (a == '9' && b == '1') || (a == '8' && b == '7') || (a == '7' && b == '8')
        || (a == '4' && b == '3') || (a == '3' && b == '4') || (a == '2' && b == '6') || (a == '6' && b == '2')
      case JueMing =>
        (a == '1' && b == '2') || (a == '2' && b == '1') || (a == '9' && b == '6') || (a == '6' && b == '9')
        || (a == '4' && b == '8') || (a == '8' && b == '4') || (a == '3' && b == '7') || (a == '7' && b == '3')
      case ShengQi =>
        (a == '1' && b == '4') || (a == '4' && b == '1') || (a == '6' && b == '7') || (a == '7' && b == '6')
        || (a == '3' && b == '9') || (a == '9' && b == '3') || (a == '2' && b == '8') || (a == '8' && b == '2')
    }

    /** combo in info["combos"]. */
    predicate Has(combo: string) {
      |combo| == 2 && HasPair(combo[0], combo[1])
    }
  }

  const Fields: seq<Field> := [TianYi, YanNian, JueMing, ShengQi]

  /** One entry of analyze_patterns' result. */
  datatype FieldEntry = FieldEntry(combo: string, pattern: string, wuxing: string, description: string)

  function EntryOf(combo: string, f: Field): FieldEntry {
    FieldEntry(combo, f.Name(), f.Wuxing(), f.Desc())
  }

  /** The entries of one window, one for each field (in the given order)
      whose combos hold it. */
  function WindowEntries(combo: string, fs: seq<Field>): seq<FieldEntry> {
    if fs == [] then []
    else
      var f := fs[|fs| - 1];
      WindowEntries(combo, fs[..|fs| - 1]) + (if f.Has(combo) then [EntryOf(combo, f)] else [])
  }

  /** The entry of one field for one window, if the field holds it. */
  function FieldEntries(combo: string, f: Field): seq<FieldEntry> {
    if f.Has(combo) then [EntryOf(combo, f)] else []
  }

  /** The window of two characters starting at i: date_str[i:i+2]. */
  function Window(s: string, i: int): (w: string)
    requires 0 <= i < |s| - 1
    ensures |w| == 2
  {
    s[i..i + 2]
  }

  /** Over the four fields of the table, a window's entries are theirs in
      table order. */
  lemma WindowEntriesFields(combo: string)
    ensures WindowEntries(combo, Fields) ==
      FieldEntries(combo, TianYi) + FieldEntries(combo, YanNian) + FieldEntries(combo, JueMing) + FieldEntries(combo, ShengQi)
  {
    var f1, f2, f3 := [TianYi], [TianYi, YanNian], [TianYi, YanNian, JueMing];
    assert f1[..0] == [] && f2[..1] == f1 && f3[..2] == f2 && Fields[..3] == f3;
    assert WindowEntries(combo, f1) == FieldEntries(combo, TianYi);
    assert WindowEntries(combo, f2) == FieldEntries(combo, TianYi) + FieldEntries(combo, YanNian);
    assert WindowEntries(combo, f3) == WindowEntries(combo, f2) + FieldEntries(combo, JueMing);
  }

  /** The entries of the first n windows, window by window. */
  function Scan(s: string, n: int): seq<FieldEntry>
    requires 0 <= n < |s|
  {
    if n == 0 then [] else Scan(s, n - 1) + WindowEntries(Window(s, n - 1), Fields)
  }

  /** NumerologyAnalyzer.analyze_patterns: every overlapping two-character
      window of the date string, left to right, checked against each field
      in turn. */
  method AnalyzePatterns(year: int, month: int, day: int) returns (res: seq<FieldEntry>)
    ensures res == Scan(DateString(year, month, day), |DateString(year, month, day)| - 1)
  {
    res := PatternsOf(DateString(year, month, day));
  }

  /** The loops of analyze_patterns over the date string. */
  method PatternsOf(dateStr: string) returns (res: seq<FieldEntry>)
    requires |dateStr| >= 1
    ensures res == Scan(dateStr, |dateStr| - 1)
  {
    res := [];
    for i := 0 to |dateStr| - 1
      invariant res == Scan(dateStr, i)
    {
      var combo := Window(dateStr, i);
      for k := 0 to |Fields|
        invariant res == Scan(dateStr, i) + WindowEntries(combo, Fields[..k])
      {
        assert Fields[..k + 1][..k] == Fields[..k];
        if Fields[k].Has(combo) {
          res := res + [EntryOf(combo, Fields[k])];
        }
      }
      assert Fields[..|Fields|] == Fields;
    }
  }

  // --------------------------------------------------------------- lemmas

  /** The field a two-digit combo belongs to, if any. */
  function FieldOf(a: char, b: char): (f: Option<Field>)
    ensures f.Some? ==> f.value.Has([a, b])
  {
    if TianYi.Has([a, b]) then Some(TianYi)
    else if YanNian.Has([a, b]) then Some(YanNian)
    else if JueMing.Has([a, b]) then Some(JueMing)
    else if ShengQi.Has([a, b]) then Some(ShengQi)
    else None
  }

  /** The four combo sets are pairwise disjoint. */
  lemma FieldsDisjoint(f: Field, g: Field, a: char, b: char)
    requires f.Has([a, b]) && g.Has([a, b])
    ensures f == g
  {
  }

  /** Each combo set holds the reversal of each of its combos. */
  lemma CombosReversible(f: Field, a: char, b: char)
    ensures f.Has([a, b]) <==> f.Has([b, a])
  {
  }

  /** No combo has a 0 or a 5 in it, or the same digit twice. */
  lemma CombosAvoid(f: Field, a: char, b: char)
    requires f.Has([a, b])
    ensures a != b && a != '0' && b != '0' && a != '5' && b != '5'
  {
  }

  /** A window gives at most one entry, that of the one field holding it,
      with the window as combo and the table's name, element and
      description. */
  lemma WindowAtMostOne(combo: string)
    ensures |WindowEntries(combo, Fields)| <= 1
    ensures |WindowEntries(combo, Fields)| == 1 <==> |combo| == 2 && FieldOf(combo[0], combo[1]).Some?
    ensures |WindowEntries(combo, Fields)| == 1 ==>
      WindowEntries(combo, Fields)[0] == EntryOf(combo, FieldOf(combo[0], combo[1]).value)
  {
    WindowEntriesFields(combo);
    if |combo| == 2 {
      assert combo == [combo[0], combo[1]];
      forall f: Field, g: Field | f.Has(combo) && g.Has(combo) ensures f == g {
        FieldsDisjoint(f, g, combo[0], combo[1]);
      }
    }
  }

  /** There are at most as many entries as windows. */
  lemma {:induction false} ScanBound(s: string, n: int)
    requires 0 <= n < |s|
    ensures |Scan(s, n)| <= n
  {
    if n > 0 {
      ScanBound(s, n - 1);
      WindowAtMostOne(s[n - 1..n + 1]);
    }
  }

  /** The combo is one of the first n windows of s. */
  ghost predicate AmongWindows(s: string, n: int, combo: string) {
    exists i :: 0 <= i < n && i < |s| - 1 && combo == Window(s, i)
  }

  /** Every entry is the table entry of a window of the date string: its
      combo is the window, and its pattern, element and description are
      those of the one field holding it. */
  lemma {:induction false} ScanEntries(s: string, n: int)
    requires 0 <= n < |s|
    ensures forall e :: e in Scan(s, n) ==>
      && |e.combo| == 2 && FieldOf(e.combo[0], e.combo[1]).Some?
      && e == EntryOf(e.combo, FieldOf(e.combo[0], e.combo[1]).value)
      && AmongWindows(s, n, e.combo)
  {
    if n > 0 {
      ScanEntries(s, n - 1);
      var w := Window(s, n - 1);
      assert Scan(s, n) == Scan(s, n - 1) + WindowEntries(w, Fields);
      forall e | e in Scan(s, n)
        ensures && |e.combo| == 2 && FieldOf(e.combo[0], e.combo[1]).Some?
                && e == EntryOf(e.combo, FieldOf(e.combo[0], e.combo[1]).value)
                && AmongWindows(s, n, e.combo)
      {
        if e in Scan(s, n - 1) {
          WindowsGrow(s, n - 1, e.combo);
        } else {
          WindowEntryShape(w, e);
          assert e.combo == Window(s, n - 1);
        }
      }
    }
  }

  /** An entry of a window carries the window and its field's values. */
  lemma WindowEntryShape(w: string, e: FieldEntry)
    requires e in WindowEntries(w, Fields)
    ensures |w| == 2 && FieldOf(w[0], w[1]).Some? && e == EntryOf(w, FieldOf(w[0], w[1]).value)
  {
    var es := WindowEntries(w, Fields);
    WindowAtMostOne(w);
    assert |es| != 0;
    assert es == [es[0]];
  }

  lemma WindowsGrow(s: string, n: int, combo: string)
    requires AmongWindows(s, n, combo)
    ensures AmongWindows(s, n + 1, combo)
  {
  }

  /** The entries come in window order: scanning more windows only appends. */
  lemma {:induction false} ScanPrefix(s: string, m: int, n: int)
    requires 0 <= m <= n < |s|
    ensures Scan(s, m) <= Scan(s, n)
    decreases n - m
  {
    if m < n {
      ScanPrefix(s, m, n - 1);
    }
  }

  /** 19900707 gives one entry: "19", 延年, 金. */
  lemma PatternsExample()
    ensures Scan("19900707", 7) == [FieldEntry("19", "延年", "金", "主能力、责任")]
  {
    var s := "19900707";
    assert Window(s, 0) == "19";
    assert FieldOf('1', '9') == Some(YanNian);
    WindowAtMostOne("19");
    assert Scan(s, 1) == [EntryOf("19", YanNian)];
    ScanSkip(s, 2);
    ScanSkip(s, 3);
    ScanSkip(s, 4);
    ScanSkip(s, 5);
    ScanSkip(s, 6);
    ScanSkip(s, 7);
  }

  /** A window with a 0 or a repeated digit adds nothing to the scan. */
  lemma ScanSkip(s: string, n: int)
    requires 2 <= n < |s|
    requires s[n - 1] == '0' || s[n] == '0' || s[n - 1] == s[n]
    ensures Scan(s, n) == Scan(s, n - 1)
  {
    NoFieldWindow(s, n - 1);
  }

  /** A window with a 0 in it, or with one digit twice, yields nothing. */
  lemma NoFieldWindow(s: string, i: int)
    requires 0 <= i < |s| - 1
    requires s[i] == '0' || s[i + 1] == '0' || s[i] == s[i + 1]
    ensures WindowEntries(Window(s, i), Fields) == []
  {
    var w := Window(s, i);
    WindowAtMostOne(w);
    assert w == [s[i], s[i + 1]];
    if FieldOf(s[i], s[i + 1]).Some? {
      CombosAvoid(FieldOf(s[i], s[i + 1]).value, s[i], s[i + 1]);
    }
  }
}
