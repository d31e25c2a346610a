/** The sixty-star-system patterns (六十星系格局): nineteen static rules over
    the major stars' positions, checked in declaration order. */
module SixtyPatterns {
  import opened Modular
  import opened Stars

  datatype SixtyPattern =
    | ZiWeiTianFu | JiYueTongLiang | TaiYangTaiYin | WuQuTianXiang | QiShaPoJun
    | ZiWeiTianJi | ZiWeiTaiYang | ZiWeiLianZhen | TianFuTaiYin | TianFuTanLang
    | TianFuJuMen | TianJiTaiYin | TianJiJuMen | TaiYangLianZhen | WuQuLianZhen
    | WuQuTanLang | TianXiangTanLang | TianLiangTanLang | QiShaLianZhen
  {
    function Value(): string {
      match this
      case ZiWeiTianFu => "紫府朝垣" case JiYueTongLiang => "机月同梁"
      case TaiYangTaiYin => "太阳太阴" case WuQuTianXiang => "武曲天相"
      case QiShaPoJun => "七杀破军" case ZiWeiTianJi => "紫微天机"
      case ZiWeiTaiYang => "紫微太阳" case ZiWeiLianZhen => "紫微廉贞"
      case TianFuTaiYin => "天府太阴" case TianFuTanLang => "天府贪狼"
      case TianFuJuMen => "天府巨门" case TianJiTaiYin => "天机太阴"
      case TianJiJuMen => "天机巨门" case TaiYangLianZhen => "太阳廉贞"
      case WuQuLianZhen => "武曲廉贞" case WuQuTanLang => "武曲贪狼"
      case TianXiangTanLang => "天相贪狼" case TianLiangTanLang => "天梁贪狼"
      case QiShaLianZhen => "七杀廉贞"
    }

    /** The stars the rule needs, in the order their positions are passed
        to the check. */
    function RuleStars(): seq<Star> {
      match this
      case ZiWeiTianFu => [ZiWei, TianFu]
      case JiYueTongLiang => [TianJi, TaiYin, TianTong, TianLiang]
      case TaiYangTaiYin => [TaiYang, TaiYin]
      case WuQuTianXiang => [WuQu, TianXiang]
      case QiShaPoJun => [QiSha, PoJun]
      case ZiWeiTianJi => [ZiWei, TianJi]
      case ZiWeiTaiYang => [ZiWei, TaiYang]
      case ZiWeiLianZhen => [ZiWei, LianZhen]
      case TianFuTaiYin => [TianFu, TaiYin]
      case TianFuTanLang => [TianFu, TanLang]
      case TianFuJuMen => [TianFu, JuMen]
      case TianJiTaiYin => [TianJi, TaiYin]
      case TianJiJuMen => [TianJi, JuMen]
      case TaiYangLianZhen => [TaiYang, LianZhen]
      case WuQuLianZhen => [WuQu, LianZhen]
      case WuQuTanLang => [WuQu, TanLang]
      case TianXiangTanLang => [TianXiang, TanLang]
      case TianLiangTanLang => [TianLiang, TanLang]
      case QiShaLianZhen => [QiSha, LianZhen]
    }

    function RuleCheck(): Check {
      match this
      case ZiWeiTianFu => Apart(6)
      case JiYueTongLiang => AllMultiplesOf3
      case TaiYangTaiYin => Apart(6)
      case WuQuTianXiang => Apart(3)
      case QiShaPoJun => Apart(3)
      case ZiWeiTianJi => Apart(1)
      case ZiWeiTaiYang => Apart(2)
      case ZiWeiLianZhen => Apart(5)
      case TianFuTaiYin => Apart(3)
      case TianFuTanLang => Apart(4)
      case TianFuJuMen => Apart(5)
      case TianJiTaiYin => Apart(2)
      case TianJiJuMen => Apart(4)
      case TaiYangLianZhen => Apart(3)
      case WuQuLianZhen => Apart(2)
      case WuQuTanLang => Apart(1)
      case TianXiangTanLang => Apart(2)
      case TianLiangTanLang => Apart(5)
      case QiShaLianZhen => Apart(1)
    }

    function Wuxing(): string {
      match this
      case ZiWeiTianFu => "土"
      case JiYueTongLiang => "水木"
      case TaiYangTaiYin => "火水"
      case WuQuTianXiang => "金水"
      case QiShaPoJun => "金"
      case ZiWeiTianJi => "土木"
      case ZiWeiTaiYang => "土火"
      case ZiWeiLianZhen => "土火水"
      case TianFuTaiYin => "土水"
      case TianFuTanLang => "土木水"
      case TianFuJuMen => "土"
      case TianJiTaiYin => "木水"
      case TianJiJuMen => "木土"
      case TaiYangLianZhen => "火水"
      case WuQuLianZhen => "金水火"
      case WuQuTanLang => "金木水"
      case TianXiangTanLang => "水木"
      case TianLiangTanLang => "土水木"
      case QiShaLianZhen => "金火"
    }

    function Score(): real {
      match this
      case ZiWeiTianFu => 0.9
      case JiYueTongLiang => 0.8
      case TaiYangTaiYin => 0.7
      case WuQuTianXiang => 0.75
      case QiShaPoJun => 0.65
      case ZiWeiTianJi => 0.85
      case ZiWeiTaiYang => 0.85
      case ZiWeiLianZhen => 0.8
      case TianFuTaiYin => 0.75
      case TianFuTanLang => 0.7
      case TianFuJuMen => 0.65
      case TianJiTaiYin => 0.7
      case TianJiJuMen => 0.6
      case TaiYangLianZhen => 0.7
      case WuQuLianZhen => 0.7
      case WuQuTanLang => 0.65
      case TianXiangTanLang => 0.6
      case TianLiangTanLang => 0.6
      case QiShaLianZhen => 0.55
    }

    function Desc(): string {
      match this
      case ZiWeiTianFu => "紫府朝垣格，主富贵双全，一生顺遂"
      case JiYueTongLiang => "机月同梁格，主聪明巧智，适合文职或技术工作"
      case TaiYangTaiYin => "太阳太阴格，主阴阳调和，一生多贵人相助"
      case WuQuTianXiang => "武曲天相格，主刚毅果决，适合从事金融或管理工作"
      case QiShaPoJun => "七杀破军格，主人生多变，需经历磨练方能成功"
      case ZiWeiTianJi => "紫微天机格，主智慧过人，善于谋略规划"
      case ZiWeiTaiYang => "紫微太阳格，主贵气十足，适合从政或公众事业"
      case ZiWeiLianZhen => "紫微廉贞格，主才华横溢，但需注意人际关系"
      case TianFuTaiYin => "天府太阴格，主温和富态，擅长理财持家"
      case TianFuTanLang => "天府贪狼格，主多才多艺，交际能力强"
      case TianFuJuMen => "天府巨门格，主性格耿直，适合法律或研究工作"
      case TianJiTaiYin => "天机太阴格，主心思细腻，适合艺术或策划工作"
      case TianJiJuMen => "天机巨门格，主口才出众，适合销售或教育工作"
      case TaiYangLianZhen => "太阳廉贞格，主热情积极，但需注意情绪管理"
      case WuQuLianZhen => "武曲廉贞格，主坚毅果敢，适合军警或工程工作"
      case WuQuTanLang => "武曲贪狼格，主敢作敢为，适合创业或冒险事业"
      case TianXiangTanLang => "天相贪狼格，主八面玲珑，适合公关或外交工作"
      case TianLiangTanLang => "天梁贪狼格，主聪明伶俐，但需注意脚踏实地"
      case QiShaLianZhen => "七杀廉贞格，主性格刚烈，需注意克制冲动"
    }
  }

  /** The rule checks: two stars whose raw indices differ by exactly d, or
      stars whose indices are all multiples of 3. */
  datatype Check = Apart(d: int) | AllMultiplesOf3

  /** One identified pattern, as identify appends it. */
  datatype PatternEntry = PatternEntry(name: string, wuxing: string, score: real, desc: string)

  /** The patterns in the declaration order of PatternAnalyzer.RULES, which
      is the order identify visits them. */
  const Patterns: seq<SixtyPattern> := [
    ZiWeiTianFu, JiYueTongLiang, TaiYangTaiYin, WuQuTianXiang, QiShaPoJun,
    ZiWeiTianJi, ZiWeiTaiYang, ZiWeiLianZhen, TianFuTaiYin, TianFuTanLang,
    TianFuJuMen, TianJiTaiYin, TianJiJuMen, TaiYangLianZhen, WuQuLianZhen,
    WuQuTanLang, TianXiangTanLang, TianLiangTanLang, QiShaLianZhen
  ]

  function Abs(x: int): (r: int)
    ensures r >= 0 && (r == x || r == -x)
  {
    if x < 0 then -x else x
  }

  /** The rule's check applied to the positions of its stars. */
  predicate Holds(check: Check, positions: seq<int>) {
    match check
    case Apart(d) => |positions| == 2 && Abs(positions[0] - positions[1]) == d
    case AllMultiplesOf3 => forall i :: 0 <= i < |positions| ==> positions[i] % 3 == 0
  }

  predicate AllPresent(majorPos: map<Star, int>, stars: seq<Star>) {
    forall i :: 0 <= i < |stars| ==> stars[i] in majorPos
  }

  /** The positions of the rule's stars, in the rule's order. */
  function Positions(majorPos: map<Star, int>, stars: seq<Star>): (p: seq<int>)
    requires AllPresent(majorPos, stars)
    ensures |p| == |stars| && forall i :: 0 <= i < |stars| ==> p[i] == majorPos[stars[i]]
  {
    seq(|stars|, i requires 0 <= i < |stars| => majorPos[stars[i]])
  }

  /** A rule fires when all its stars are placed and its check holds. */
  predicate Fires(majorPos: map<Star, int>, p: SixtyPattern) {
    AllPresent(majorPos, p.RuleStars()) && Holds(p.RuleCheck(), Positions(majorPos, p.RuleStars()))
  }

  function EntryOf(p: SixtyPattern): PatternEntry {
    PatternEntry(p.Value(), p.Wuxing(), p.Score(), p.Desc())
  }

  /** The entries of the patterns that fire, in the given order. */
  function Matches(majorPos: map<Star, int>, ps: seq<SixtyPattern>): seq<PatternEntry>
    decreases |ps|
  {
    if ps == [] then []
    else
      var last := ps[|ps| - 1];
      Matches(majorPos, ps[..|ps| - 1]) + (if Fires(majorPos, last) then [EntryOf(last)] else [])
  }

  /** The indices of the patterns that fire, ascending. */
  function FiredIndices(majorPos: map<Star, int>, ps: seq<SixtyPattern>): seq<int>
    decreases |ps|
  {
    if ps == [] then []
    else
      FiredIndices(majorPos, ps[..|ps| - 1]) + (if Fires(majorPos, ps[|ps| - 1]) then [|ps| - 1] else [])
  }

  /** PatternAnalyzer.identify: one pass over the rules, appending the entry
      of each rule whose stars are all placed and whose check holds. */
  method Identify(majorPos: map<Star, int>) returns (res: seq<PatternEntry>)
    ensures res == Matches(majorPos, Patterns)
  {
    res := [];
    for i := 0 to |Patterns|
      invariant res == Matches(majorPos, Patterns[..i])
    {
      MatchesStep(majorPos, Patterns, i);
      var pattern := Patterns[i];
      var stars := pattern.RuleStars();
      if !AllPresent(majorPos, stars) {
        continue;
      }
      var positions := Positions(majorPos, stars);
      if Holds(pattern.RuleCheck(), positions) {
        res := res + [EntryOf(pattern)];
      }
    }
    assert Patterns[..|Patterns|] == Patterns;
  }

  /** Extending the visited prefix by one pattern appends its entry if it fires. */
  lemma MatchesStep(majorPos: map<Star, int>, ps: seq<SixtyPattern>, i: int)
    requires 0 <= i < |ps|
    ensures Matches(majorPos, ps[..i + 1]) ==
      Matches(majorPos, ps[..i]) + (if Fires(majorPos, ps[i]) then [EntryOf(ps[i])] else [])
  {
    assert ps[..i + 1][..i] == ps[..i];
  }

  /** Matches and FiredIndices have the same length, bounded by the number
      of patterns. */
  lemma {:induction false} FiredCount(majorPos: map<Star, int>, ps: seq<SixtyPattern>)
    ensures |Matches(majorPos, ps)| == |FiredIndices(majorPos, ps)| <= |ps|
    decreases |ps|
  {
    if ps != [] {
      FiredCount(majorPos, ps[..|ps| - 1]);
    }
  }

  /** Every fired index is in range and names a pattern that fires. */
  lemma {:induction false} FiredSound(majorPos: map<Star, int>, ps: seq<SixtyPattern>)
    ensures forall k :: 0 <= k < |FiredIndices(majorPos, ps)| ==>
      0 <= FiredIndices(majorPos, ps)[k] < |ps| && Fires(majorPos, ps[FiredIndices(majorPos, ps)[k]])
    decreases |ps|
  {
    if ps != [] {
      var n := |ps| - 1;
      var front := ps[..n];
      FiredSound(majorPos, front);
      var idx0, idx := FiredIndices(majorPos, front), FiredIndices(majorPos, ps);
      assert idx == idx0 + (if Fires(majorPos, ps[n]) then [n] else []);
      forall k | 0 <= k < |idx|
        ensures 0 <= idx[k] < |ps| && Fires(majorPos, ps[idx[k]])
      {
        if k < |idx0| {
          assert idx[k] == idx0[k] && front[idx0[k]] == ps[idx0[k]];
        }
      }
    }
  }

  /** The fired indices ascend, so no pattern is reported twice. */
  lemma {:induction false} FiredAscending(majorPos: map<Star, int>, ps: seq<SixtyPattern>)
    ensures forall k, l :: 0 <= k < l < |FiredIndices(majorPos, ps)| ==>
      FiredIndices(majorPos, ps)[k] < FiredIndices(majorPos, ps)[l]
    decreases |ps|
  {
    if ps != [] {
      var n := |ps| - 1;
      var front := ps[..n];
      FiredAscending(majorPos, front);
      FiredSound(majorPos, front);
      var idx0, idx := FiredIndices(majorPos, front), FiredIndices(majorPos, ps);
      assert idx == idx0 + (if Fires(majorPos, ps[n]) then [n] else []);
      forall k, l | 0 <= k < l < |idx|
        ensures idx[k] < idx[l]
      {
        if l < |idx0| {
          assert idx[k] == idx0[k] && idx[l] == idx0[l];
        } else {
          assert idx[k] == idx0[k] && idx[l] == n;
        }
      }
    }
  }

  /** Entry k of the result is the entry of the pattern at fired index k. */
  lemma {:induction false} MatchesAtFired(majorPos: map<Star, int>, ps: seq<SixtyPattern>)
    ensures |Matches(majorPos, ps)| == |FiredIndices(majorPos, ps)|
    ensures forall k :: 0 <= k < |FiredIndices(majorPos, ps)| ==>
      0 <= FiredIndices(majorPos, ps)[k] < |ps|
      && Matches(majorPos, ps)[k] == EntryOf(ps[FiredIndices(majorPos, ps)[k]])
    decreases |ps|
  {
    if ps != [] {
      var n := |ps| - 1;
      var front := ps[..n];
      MatchesAtFired(majorPos, front);
      var idx0, idx := FiredIndices(majorPos, front), FiredIndices(majorPos, ps);
      var r0, r := Matches(majorPos, front), Matches(majorPos, ps);
      assert idx == idx0 + (if Fires(majorPos, ps[n]) then [n] else []);
      assert r == r0 + (if Fires(majorPos, ps[n]) then [EntryOf(ps[n])] else []);
      forall k | 0 <= k < |idx|
        ensures 0 <= idx[k] < |ps| && r[k] == EntryOf(ps[idx[k]])
      {
        if k < |idx0| {
          assert idx[k] == idx0[k] && r[k] == r0[k] && front[idx0[k]] == ps[idx0[k]];
        }
      }
    }
  }

  /** Every pattern that fires is among the fired indices. */
  lemma {:induction false} FiredComplete(majorPos: map<Star, int>, ps: seq<SixtyPattern>)
    ensures forall i :: 0 <= i < |ps| && Fires(majorPos, ps[i]) ==> i in FiredIndices(majorPos, ps)
    decreases |ps|
  {
    if ps != [] {
      var n := |ps| - 1;
      var front := ps[..n];
      FiredComplete(majorPos, front);
      assert forall i :: 0 <= i < n ==> front[i] == ps[i];
    }
  }

  /** identify returns at most one entry per rule. */
  lemma AtMostOnePerRule(majorPos: map<Star, int>)
    ensures |Matches(majorPos, Patterns)| <= 19
  {
    FiredCount(majorPos, Patterns);
  }

  /** Every rule names at least two stars, and every score lies in (0, 1]. */
  lemma RuleShape(p: SixtyPattern)
    ensures |p.RuleStars()| >= 2
    ensures 0.0 < p.Score() <= 1.0
  {
  }

  /** With no major star placed no rule fires. */
  lemma {:induction false} EmptyPlacementMatchesNothing(ps: seq<SixtyPattern>)
    ensures Matches(map[], ps) == []
    decreases |ps|
  {
    if ps != [] {
      EmptyPlacementMatchesNothing(ps[..|ps| - 1]);
      var stars := ps[|ps| - 1].RuleStars();
      RuleShape(ps[|ps| - 1]);
      var empty: map<Star, int> := map[];
      assert stars[0] !in empty;
    }
  }

  /** The two-star checks compare raw indices, not distance round the
      ring: 紫微 at 11 and 天机 at 0 are neighbours, yet 紫微天机 does not fire. */
  lemma RawDifference()
    ensures !Fires(map[ZiWei := 11, TianJi := 0], ZiWeiTianJi)
  {
    var m := map[ZiWei := 11, TianJi := 0];
    assert Positions(m, ZiWeiTianJi.RuleStars()) == [11, 0];
  }

  /** 机月同梁 fires exactly when 天机, 太阴, 天同 and 天梁 are all placed on
      sectors that are multiples of 3. */
  lemma JiYueTongLiangRule(m: map<Star, int>)
    ensures Fires(m, JiYueTongLiang) <==>
      && TianJi in m && TaiYin in m && TianTong in m && TianLiang in m
      && m[TianJi] % 3 == 0 && m[TaiYin] % 3 == 0 && m[TianTong] % 3 == 0 && m[TianLiang] % 3 == 0
  {
    var stars := JiYueTongLiang.RuleStars();
    assert stars[0] == TianJi && stars[1] == TaiYin && stars[2] == TianTong && stars[3] == TianLiang;
    assert AllPresent(m, stars) <==> TianJi in m && TaiYin in m && TianTong in m && TianLiang in m;
    if AllPresent(m, stars) {
      var p := Positions(m, stars);
      assert p[0] == m[TianJi] && p[1] == m[TaiYin] && p[2] == m[TianTong] && p[3] == m[TianLiang];
    }
  }

  /** A first pattern that fires heads the list. */
  lemma {:induction false} FirstFiresHeads(majorPos: map<Star, int>, ps: seq<SixtyPattern>)
    requires |ps| >= 1 && Fires(majorPos, ps[0])
    ensures |Matches(majorPos, ps)| >= 1 && Matches(majorPos, ps)[0] == EntryOf(ps[0])
    decreases |ps|
  {
    if |ps| > 1 {
      var front := ps[..|ps| - 1];
      assert front[0] == ps[0];
      FirstFiresHeads(majorPos, front);
    }
  }

  /** Any placement arrange_major_stars produces has 天府 opposite 紫微, so
      紫府朝垣 always fires. */
  lemma ZiFuAlwaysFires(m: map<Star, int>, ziPos: int, direction: int)
    requires IsMajorLayout(m, ziPos, direction)
    ensures Fires(m, ZiWeiTianFu)
  {
    assert ZiWei.IsMajor() && TianFu.IsMajor();
    TianFuOpposite(ziPos, direction);
    var z := m[ZiWei];
    assert m[TianFu] == (z + 6) % 12;
    if z < 6 {
      Mod12(z + 6, 0, z + 6);
    } else {
      Mod12(z + 6, 1, z - 6);
    }
    assert Positions(m, ZiWeiTianFu.RuleStars()) == [z, m[TianFu]];
  }

  /** ... and so heads identify's list. */
  lemma ZiFuHeads(m: map<Star, int>, ziPos: int, direction: int)
    requires IsMajorLayout(m, ziPos, direction)
    ensures |Matches(m, Patterns)| >= 1 && Matches(m, Patterns)[0] == EntryOf(ZiWeiTianFu)
  {
    ZiFuAlwaysFires(m, ziPos, direction);
    FirstFiresHeads(m, Patterns);
  }
}
