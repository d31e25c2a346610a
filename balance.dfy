/** ZhongZhouCalculator.analyze_wuxing: the five-element balance of the
    major stars present in a placement. Counts, ratios and the 0.15
    threshold are exact rationals here. */
module WuxingBalance {
  import opened Outcomes
  import opened Stars

  /** The keys of cnt, in their order. */
  const ElementNames: string := "金木水火土"

  function ElementIndex(c: char): (i: int)
    requires c in ElementNames
    ensures 0 <= i < 5 && ElementNames[i] == c
  {
    match c case '金' => 0 case '木' => 1 case '水' => 2 case '火' => 3 case _ => 4
  }

  /** The cnt dictionary: one count per element. */
  datatype Counts = Counts(jin: real, mu: real, shui: real, huo: real, tu: real) {
    /** cnt[ElementNames[k]]. */
    function Get(k: int): real
      requires 0 <= k < 5
    {
      match k case 0 => jin case 1 => mu case 2 => shui case 3 => huo case _ => tu
    }

    /** cnt[e] += w. */
    function Add(e: char, w: real): (c: Counts)
      ensures e in ElementNames ==> c.Get(ElementIndex(e)) == Get(ElementIndex(e)) + w
    {
      match e
      case '金' => this.(jin := jin + w)
      case '木' => this.(mu := mu + w)
      case '水' => this.(shui := shui + w)
      case '火' => this.(huo := huo + w)
      case _ => this.(tu := tu + w)
    }

    /** The values in key order. */
    function Values(): (v: seq<real>)
      ensures |v| == 5 && forall k :: 0 <= k < 5 ==> v[k] == Get(k)
    {
      [jin, mu, shui, huo, tu]
    }
  }

  const NoCounts: Counts := Counts(0.0, 0.0, 0.0, 0.0, 0.0)

  /** cnt after adding share to each element of wux in turn. */
  function AddShares(cnt: Counts, wux: seq<char>, share: real): (c: Counts)
    requires forall i :: 0 <= i < |wux| ==> wux[i] in ElementNames
  {
    if wux == [] then cnt
    else AddShares(cnt, wux[..|wux| - 1], share).Add(wux[|wux| - 1], share)
  }

  /** 1 / len(wux): a whole count for a star of one element, a half to
      each element of a star of two (stars have one or two). */
  function Share(s: Star): (w: real)
    ensures |s.Elements()| == 1 ==> w == 1.0
    ensures |s.Elements()| == 2 ==> w == 0.5
  {
    if |s.Elements()| == 1 then 1.0 else 0.5
  }

  /** cnt after the first n stars of MAJOR: each one present in the
      placement adds its share to each of its elements. */
  function Tally(majorPos: map<Star, int>, n: int): (c: Counts)
    requires 0 <= n <= |Major|
  {
    if n == 0 then NoCounts
    else
      var prev := Tally(majorPos, n - 1);
      var star := Major[n - 1];
      if star in majorPos then AddShares(prev, star.Elements(), Share(star)) else prev
  }

  /** sum(cnt.values()). */
  function Total(c: Counts): real {
    c.jin + c.mu + c.shui + c.huo + c.tu
  }

  /** {k: v / total for k, v in cnt.items()}. */
  function Ratios(cnt: Counts): (r: seq<real>)
    requires Total(cnt) != 0.0
    ensures |r| == 5
    ensures forall k :: 0 <= k < 5 ==> r[k] * Total(cnt) == cnt.Get(k)
  {
    var total := Total(cnt);
    seq(5, k requires 0 <= k < 5 => cnt.Get(k) / total)
  }

  /** max(ratio, key=ratio.get): the first index of a largest value. */
  function FirstMax(r: seq<real>): (i: int)
    requires |r| > 0
    ensures 0 <= i < |r|
    ensures forall j :: 0 <= j < |r| ==> r[j] <= r[i]
    ensures forall j :: 0 <= j < i ==> r[j] < r[i]
  {
    if |r| == 1 then 0
    else
      var k := FirstMax(r[..|r| - 1]);
      assert forall j :: 0 <= j < |r| - 1 ==> r[..|r| - 1][j] == r[j];
      if r[|r| - 1] > r[k] then |r| - 1 else k
  }

  /** min(ratio, key=ratio.get): the first index of a smallest value. */
  function FirstMin(r: seq<real>): (i: int)
    requires |r| > 0
    ensures 0 <= i < |r|
    ensures forall j :: 0 <= j < |r| ==> r[i] <= r[j]
    ensures forall j :: 0 <= j < i ==> r[i] < r[j]
  {
    if |r| == 1 then 0
    else
      var k := FirstMin(r[..|r| - 1]);
      assert forall j :: 0 <= j < |r| - 1 ==> r[..|r| - 1][j] == r[j];
      if r[|r| - 1] < r[k] then |r| - 1 else k
  }

  /** The position of an element name in 金木水火土, 5 for anything else. */
  function Rank(x: string): (k: int)
    ensures 0 <= k <= 5
    ensures k < 5 ==> x == [ElementNames[k]]
  {
    if |x| == 1 && x[0] in ElementNames then ElementIndex(x[0]) else 5
  }

  lemma RankOf(k: int)
    requires 0 <= k < 5
    ensures Rank([ElementNames[k]]) == k
  {
  }

  /** The names of the first n elements whose ratio is below 0.15: exactly
      those, each once, in 金木水火土 order. */
  function Below(ratio: seq<real>, n: int): (d: seq<string>)
    requires 0 <= n <= |ratio| <= 5
    ensures |d| <= n
    ensures forall x :: x in d ==> Rank(x) < n && ratio[Rank(x)] < 0.15
    ensures forall k :: 0 <= k < n && ratio[k] < 0.15 ==> [ElementNames[k]] in d
    ensures forall i, j :: 0 <= i < j < |d| ==> Rank(d[i]) < Rank(d[j])
  {
    if n == 0 then []
    else
      var prev := Below(ratio, n - 1);
      if ratio[n - 1] < 0.15 then
        RankOf(n - 1);
        BelowAppend(ratio, n, prev, [ElementNames[n - 1]]);
        prev + [[ElementNames[n - 1]]]
      else prev
  }

  /** Appending the element n-1 keeps the names ranked and ascending. */
  lemma BelowAppend(ratio: seq<real>, n: int, prev: seq<string>, y: string)
    requires 1 <= n <= |ratio| <= 5
    requires Rank(y) == n - 1 && ratio[n - 1] < 0.15
    requires forall x :: x in prev ==> Rank(x) < n - 1 && ratio[Rank(x)] < 0.15
    requires forall i, j :: 0 <= i < j < |prev| ==> Rank(prev[i]) < Rank(prev[j])
    ensures forall x :: x in prev + [y] ==> Rank(x) < n && ratio[Rank(x)] < 0.15
    ensures forall i, j :: 0 <= i < j < |prev + [y]| ==> Rank((prev + [y])[i]) < Rank((prev + [y])[j])
  {
    var d := prev + [y];
    forall i, j | 0 <= i < j < |d|
      ensures Rank(d[i]) < Rank(d[j])
    {
      if j == |prev| {
        assert d[i] in prev;
      } else {
        assert d[i] == prev[i] && d[j] == prev[j];
      }
    }
  }

  /** [k for k, v in ratio.items() if v < 0.15] or ["无"]. */
  function Deficiency(ratio: seq<real>): (d: seq<string>)
    requires |ratio| == 5
    ensures d == ["无"] <==> forall k :: 0 <= k < 5 ==> ratio[k] >= 0.15
    ensures d != ["无"] ==> d == Below(ratio, 5)
  {
    var d := Below(ratio, 5);
    if d == [] then ["无"]
    else
      assert d[0] in d;
      d
  }

  /** The dictionary analyze_wuxing returns. */
  datatype Analysis = Analysis(
    count: Counts, ratio: seq<real>, strongest: string, weakest: string, deficiency: seq<string>)

  /** What analyze_wuxing returns for the counts cnt: a zero total is a
      ZeroDivisionError; otherwise the counts, the ratios, the first
      strongest and first weakest element and the deficient ones. */
  function AnalysisOf(cnt: Counts): (r: Result<Analysis>)
    ensures r.Err? <==> Total(cnt) == 0.0
    ensures r.Err? ==> r.error == ZeroDivisionError
    ensures r.Ok? ==>
      && r.value.count == cnt && r.value.ratio == Ratios(cnt)
      && r.value.strongest == [ElementNames[FirstMax(Ratios(cnt))]]
      && r.value.weakest == [ElementNames[FirstMin(Ratios(cnt))]]
      && r.value.deficiency == Deficiency(Ratios(cnt))
  {
    if Total(cnt) == 0.0 then Err(ZeroDivisionError)
    else
      var ratio := Ratios(cnt);
      Ok(Analysis(cnt, ratio, [ElementNames[FirstMax(ratio)]], [ElementNames[FirstMin(ratio)]], Deficiency(ratio)))
  }

  /** analyze_wuxing. */
  method AnalyzeWuxing(majorPos: map<Star, int>) returns (r: Result<Analysis>)
    ensures r == AnalysisOf(Tally(majorPos, |Major|))
  {
    var cnt := NoCounts;
    for i := 0 to |Major|
      invariant cnt == Tally(majorPos, i)
    {
      var star := Major[i];
      if star in majorPos {
        var wux := star.Elements();
        for j := 0 to |wux|
          invariant cnt == AddShares(Tally(majorPos, i), wux[..j], Share(star))
        {
          assert wux[..j + 1][..j] == wux[..j];
          cnt := cnt.Add(wux[j], Share(star));
        }
        assert wux[..|wux|] == wux;
      }
    }
    var total := cnt.jin + cnt.mu + cnt.shui + cnt.huo + cnt.tu;
    if total == 0.0 {
      return Err(ZeroDivisionError);
    }
    var ratio := Ratios(cnt);
    var strongest := FirstMax(ratio);
    var weakest := FirstMin(ratio);
    var deficiency := Deficiency(ratio);
    return Ok(Analysis(cnt, ratio, [ElementNames[strongest]], [ElementNames[weakest]], deficiency));
  }

  // ---------------------------------------------------------------- lemmas

  /** The number of the first n stars of MAJOR present in the placement,
      as a real like the counts. */
  function Present(majorPos: map<Star, int>, n: int): (p: real)
    requires 0 <= n <= |Major|
    ensures 0.0 <= p <= n as real
    ensures p == n as real <==> forall i :: 0 <= i < n ==> Major[i] in majorPos
    ensures p == 0.0 <==> forall i :: 0 <= i < n ==> Major[i] !in majorPos
  {
    if n == 0 then 0.0 else Present(majorPos, n - 1) + (if Major[n - 1] in majorPos then 1.0 else 0.0)
  }

  /** Adding a share to one element adds it to the total. */
  lemma TotalAdd(c: Counts, e: char, w: real)
    ensures Total(c.Add(e, w)) == Total(c) + w
  {
  }

  /** Sharing over one element adds the share to it. */
  lemma AddSharesOne(cnt: Counts, wux: seq<char>, w: real)
    requires |wux| == 1 && wux[0] in ElementNames
    ensures AddShares(cnt, wux, w) == cnt.Add(wux[0], w)
  {
    assert wux[..0] == [];
  }

  /** Sharing over two elements adds the share to each in turn. */
  lemma AddSharesTwo(cnt: Counts, wux: seq<char>, w: real)
    requires |wux| == 2 && wux[0] in ElementNames && wux[1] in ElementNames
    ensures AddShares(cnt, wux, w) == cnt.Add(wux[0], w).Add(wux[1], w)
  {
    AddSharesOne(cnt, wux[..1], w);
  }

  /** A star present adds one to the total, however it is shared. */
  lemma StarAddsOne(cnt: Counts, s: Star)
    ensures Total(AddShares(cnt, s.Elements(), Share(s))) == Total(cnt) + 1.0
  {
    var e := s.Elements();
    if |e| == 1 {
      AddSharesOne(cnt, e, Share(s));
      TotalAdd(cnt, e[0], Share(s));
    } else {
      AddSharesTwo(cnt, e, Share(s));
      TotalAdd(cnt, e[0], Share(s));
      TotalAdd(cnt.Add(e[0], Share(s)), e[1], Share(s));
    }
  }

  /** One more star of MAJOR adds one to the total when it is present. */
  lemma TotalStep(majorPos: map<Star, int>, n: int)
    requires 0 < n <= |Major|
    ensures Total(Tally(majorPos, n)) ==
      Total(Tally(majorPos, n - 1)) + (if Major[n - 1] in majorPos then 1.0 else 0.0)
  {
    if Major[n - 1] in majorPos {
      StarAddsOne(Tally(majorPos, n - 1), Major[n - 1]);
    }
  }

  /** Each star present counts once in all: the counts add up to the number
      of major stars present. */
  lemma {:induction false} TallyTotal(majorPos: map<Star, int>, n: int)
    requires 0 <= n <= |Major|
    ensures Total(Tally(majorPos, n)) == Present(majorPos, n)
  {
    if n > 0 {
      TallyTotal(majorPos, n - 1);
      TotalStep(majorPos, n);
    }
  }

  /** The counts depend only on which major stars are present, not on
      where they are or on any other key. */
  lemma {:induction false} TallyKeys(m1: map<Star, int>, m2: map<Star, int>, n: int)
    requires 0 <= n <= |Major|
    requires forall i :: 0 <= i < n ==> (Major[i] in m1 <==> Major[i] in m2)
    ensures Tally(m1, n) == Tally(m2, n)
  {
    if n > 0 {
      TallyKeys(m1, m2, n - 1);
    }
  }

  /** The analysis is a ZeroDivisionError exactly when no major star is
      present. */
  lemma {:induction false} NoMajorNoAnalysis(majorPos: map<Star, int>)
    ensures AnalysisOf(Tally(majorPos, |Major|)).Err? <==> forall i :: 0 <= i < |Major| ==> Major[i] !in majorPos
  {
    TallyTotal(majorPos, |Major|);
    PresentZero(majorPos, |Major|);
  }

  lemma {:induction false} PresentZero(majorPos: map<Star, int>, n: int)
    requires 0 <= n <= |Major|
    ensures Present(majorPos, n) == 0.0 <==> forall i :: 0 <= i < n ==> Major[i] !in majorPos
  {
    if n > 0 {
      PresentZero(majorPos, n - 1);
    }
  }

  /** The ratios add up to one. */
  lemma RatiosSum(cnt: Counts)
    requires Total(cnt) != 0.0
    ensures var r := Ratios(cnt); r[0] + r[1] + r[2] + r[3] + r[4] == 1.0
  {
    var t := Total(cnt);
    var r := Ratios(cnt);
    assert r[0] == cnt.jin / t && r[1] == cnt.mu / t && r[2] == cnt.shui / t;
    assert r[3] == cnt.huo / t && r[4] == cnt.tu / t;
    SharesOfTotal(cnt.jin, cnt.mu, cnt.shui, cnt.huo, cnt.tu, t);
  }

  /** Five parts of a non-zero whole, each divided by it, add up to one. */
  lemma SharesOfTotal(a: real, b: real, c: real, d: real, e: real, t: real)
    requires t != 0.0 && a + b + c + d + e == t
    ensures a / t + b / t + c / t + d / t + e / t == 1.0
  {
    assert a / t + b / t + c / t + d / t + e / t == (a + b + c + d + e) / t;
  }

  /** The counts after each prefix of MAJOR when every major star is placed. */
  const Running: seq<Counts> := [
    NoCounts,
    Counts(0.0, 0.0, 0.0, 0.0, 1.0), Counts(0.0, 1.0, 0.0, 0.0, 1.0), Counts(0.0, 1.0, 0.0, 1.0, 1.0),
    Counts(1.0, 1.0, 0.0, 1.0, 1.0), Counts(1.0, 1.0, 1.0, 1.0, 1.0), Counts(1.0, 1.0, 1.5, 1.5, 1.0),
    Counts(1.0, 1.0, 1.5, 1.5, 2.0), Counts(1.0, 1.0, 2.5, 1.5, 2.0), Counts(1.0, 1.5, 3.0, 1.5, 2.0),
    Counts(1.0, 1.5, 3.0, 1.5, 3.0), Counts(1.0, 1.5, 4.0, 1.5, 3.0), Counts(1.0, 1.5, 4.0, 1.5, 4.0),
    Counts(2.0, 1.5, 4.0, 1.5, 4.0), Counts(2.0, 1.5, 5.0, 1.5, 4.0)]

  /** Each entry of Running is the one before with the next star's shares added. */
  lemma RunningStep(n: int)
    requires 1 <= n <= |Major|
    ensures AddShares(Running[n - 1], Major[n - 1].Elements(), Share(Major[n - 1])) == Running[n]
  {
    var s := Major[n - 1];
    var e := s.Elements();
    if |e| == 1 {
      AddSharesOne(Running[n - 1], e, 1.0);
      RunningStepOne(n, e[0]);
    } else {
      AddSharesTwo(Running[n - 1], e, 0.5);
      RunningStepTwo(n, e[0], e[1]);
    }
  }

  lemma RunningStepOne(n: int, e: char)
    requires 1 <= n <= |Major| && Major[n - 1].Elements() == [e]
    ensures Running[n - 1].Add(e, 1.0) == Running[n]
  {
  }

  lemma RunningStepTwo(n: int, e1: char, e2: char)
    requires 1 <= n <= |Major| && Major[n - 1].Elements() == [e1, e2]
    ensures Running[n - 1].Add(e1, 0.5).Add(e2, 0.5) == Running[n]
  {
  }

  /** With every major star placed, the tally follows Running. */
  lemma {:induction false} FullTallyUpTo(majorPos: map<Star, int>, n: int)
    requires forall s: Star :: s.IsMajor() ==> s in majorPos
    requires 0 <= n <= |Major|
    ensures Tally(majorPos, n) == Running[n]
  {
    if n > 0 {
      FullTallyUpTo(majorPos, n - 1);
      MajorListed(Major[n - 1]);
      RunningStep(n);
    }
  }

  /** With all fourteen major stars placed the counts are 金 2, 木 1.5,
      水 5, 火 1.5, 土 4, wherever the stars are. */
  lemma FullTally(majorPos: map<Star, int>)
    requires forall s: Star :: s.IsMajor() ==> s in majorPos
    ensures Tally(majorPos, |Major|) == Counts(2.0, 1.5, 5.0, 1.5, 4.0)
  {
    FullTallyUpTo(majorPos, |Major|);
  }

  /** The ratios of a full placement: 2/14, 1.5/14, 5/14, 1.5/14, 4/14. */
  const FullRatios: seq<real> := [1.0 / 7.0, 3.0 / 28.0, 5.0 / 14.0, 3.0 / 28.0, 2.0 / 7.0]

  lemma FullRatiosAre()
    ensures Total(Counts(2.0, 1.5, 5.0, 1.5, 4.0)) == 14.0
    ensures Ratios(Counts(2.0, 1.5, 5.0, 1.5, 4.0)) == FullRatios
  {
    var cnt := Counts(2.0, 1.5, 5.0, 1.5, 4.0);
    var r := Ratios(cnt);
    assert Total(cnt) == 14.0;
    assert r[0] * 14.0 == 2.0 && r[1] * 14.0 == 1.5 && r[2] * 14.0 == 5.0;
    assert r[3] * 14.0 == 1.5 && r[4] * 14.0 == 4.0;
  }

  lemma FullExtremes()
    ensures FirstMax(FullRatios) == 2 && FirstMin(FullRatios) == 1
  {
    var r := FullRatios;
    var hi := FirstMax(r);
    assert r[2] <= r[hi];
    var lo := FirstMin(r);
    assert r[lo] <= r[1] && r[1] == r[3];
  }

  lemma FullBelow()
    ensures Below(FullRatios, 5) == ["金", "木", "火"]
  {
    var r := FullRatios;
    assert Below(r, 1) == ["金"];
    assert Below(r, 2) == ["金", "木"];
    assert Below(r, 3) == ["金", "木"];
    assert Below(r, 4) == ["金", "木", "火"];
  }

  /** For a full placement 水 is the strongest element, 木 the weakest (it
      ties with 火 and comes first), and 金, 木 and 火 fall below 0.15. */
  lemma FullAnalysis(majorPos: map<Star, int>)
    requires forall s: Star :: s.IsMajor() ==> s in majorPos
    ensures AnalysisOf(Tally(majorPos, |Major|)).Ok?
    ensures AnalysisOf(Tally(majorPos, |Major|)).value.strongest == "水"
    ensures AnalysisOf(Tally(majorPos, |Major|)).value.weakest == "木"
    ensures AnalysisOf(Tally(majorPos, |Major|)).value.deficiency == ["金", "木", "火"]
  {
    FullTally(majorPos);
    FullRatiosAre();
    FullExtremes();
    FullBelow();
    assert Deficiency(FullRatios) == ["金", "木", "火"];
  }
}
