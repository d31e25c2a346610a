/** Star placement (安星): the fourteen major stars in two chains anchored at
    紫微, the fourteen auxiliary stars read from year-stem tables with their
    opposite (+6) partners, and the file's own hour and month helpers.

    Star names are the keys of every dictionary the chart engine builds; the
    model names them by the Star datatype and maps a name string to a Star
    with StarNamed. */
module Stars {
  import opened Outcomes
  import opened Modular
  import opened GanZhi
  import opened Palaces

  datatype Star =
    // StarSystem.MAJOR, in order
    | ZiWei | TianJi | TaiYang | WuQu | TianTong | LianZhen
    | TianFu | TaiYin | TanLang | JuMen | TianXiang | TianLiang | QiSha | PoJun
    // StarSystem.AUX, in order
    | WenChang | WenQu | ZuoFu | YouBi | LuCun | TianKui | TianYue
    | TianMa | QingYang | TuoLuo | HuoXing | LingXing | DiKong | DiJie
  {
    function Name(): (n: string)
      ensures |n| == 2
    {
      match this
      case ZiWei => "紫微" case TianJi => "天机" case TaiYang => "太阳"
      case WuQu => "武曲" case TianTong => "天同" case LianZhen => "廉贞"
      case TianFu => "天府" case TaiYin => "太阴" case TanLang => "贪狼"
      case JuMen => "巨门" case TianXiang => "天相" case TianLiang => "天梁"
      case QiSha => "七杀" case PoJun => "破军"
      case WenChang => "文昌" case WenQu => "文曲" case ZuoFu => "左辅"
      case YouBi => "右弼" case LuCun => "禄存" case TianKui => "天魁"
      case TianYue => "天钺" case TianMa => "天马" case QingYang => "擎羊"
      case TuoLuo => "陀罗" case HuoXing => "火星" case LingXing => "铃星"
      case DiKong => "地空" case DiJie => "地劫"
    }

    /** StarSystem.WUXING: the element characters of the star, one or two. */
    function Elements(): (e: seq<char>)
      ensures 1 <= |e| <= 2
      ensures forall i :: 0 <= i < |e| ==> e[i] in "金木水火土"
    {
      match this
      case ZiWei => "土" case TianJi => "木" case TaiYang => "火"
      case WuQu => "金" case TianTong => "水" case LianZhen => "火水"
      case TianFu => "土" case TaiYin => "水" case TanLang => "木水"
      case JuMen => "土" case TianXiang => "水" case TianLiang => "土"
      case QiSha => "金" case PoJun => "水"
      case WenChang => "木" case WenQu => "水" case ZuoFu => "土"
      case YouBi => "土" case TianKui => "金" case TianYue => "金"
      case LuCun => "土" case TianMa => "火" case QingYang => "金"
      case TuoLuo => "金" case HuoXing => "火" case LingXing => "火"
      case DiKong => "土" case DiJie => "土"
    }

    /** The star's place in StarSystem.MAJOR, or 14 for an auxiliary star. */
    function MajorIndex(): (i: int)
      ensures 0 <= i <= 14
    {
      match this
      case ZiWei => 0 case TianJi => 1 case TaiYang => 2 case WuQu => 3
      case TianTong => 4 case LianZhen => 5 case TianFu => 6 case TaiYin => 7
      case TanLang => 8 case JuMen => 9 case TianXiang => 10 case TianLiang => 11
      case QiSha => 12 case PoJun => 13
      case _ => 14
    }

    predicate IsMajor() {
      MajorIndex() < 14
    }
  }

  const Major: seq<Star> :=
    [ZiWei, TianJi, TaiYang, WuQu, TianTong, LianZhen,
     TianFu, TaiYin, TanLang, JuMen, TianXiang, TianLiang, QiSha, PoJun]

  const Aux: seq<Star> :=
    [WenChang, WenQu, ZuoFu, YouBi, LuCun, TianKui, TianYue,
     TianMa, QingYang, TuoLuo, HuoXing, LingXing, DiKong, DiJie]

  /** The auxiliary stars, as the key set of arrange_aux_stars. */
  const AuxKeys: set<Star> :=
    {WenChang, WenQu, ZuoFu, YouBi, LuCun, TianKui, TianYue,
     TianMa, QingYang, TuoLuo, HuoXing, LingXing, DiKong, DiJie}

  /** MAJOR holds each major star at its own index. */
  lemma MajorAt(s: Star)
    ensures s.IsMajor() ==> Major[s.MajorIndex()] == s
  {
  }

  /** MAJOR lists the major stars, AUX (and AuxKeys) the others. */
  lemma MajorListed(s: Star)
    ensures s.IsMajor() <==> s in Major
  {
    MajorAt(s);
  }

  lemma AuxKeysListed(s: Star)
    ensures !s.IsMajor() <==> s in AuxKeys
  {
  }

  lemma AuxListed(s: Star)
    ensures !s.IsMajor() <==> s in Aux
  {
  }

  /** The star whose name is the given string, if any. Every name is two
      characters long, so the lookup is written by first character. */
  function StarNamed(name: string): (r: Option<Star>)
    ensures r.Some? ==> r.value.Name() == name
  {
    if |name| != 2 then None
    else
      var r := StarNamedPair(name[0], name[1]);
      assert r.Some? ==> r.value.Name() == name by {
        if r.Some? {
          var n := r.value.Name();
          assert forall i :: 0 <= i < 2 ==> n[i] == name[i];
        }
      }
      r
  }

  function StarNamedPair(first: char, second: char): (r: Option<Star>)
    ensures r.Some? ==> r.value.Name()[0] == first && r.value.Name()[1] == second
  {
    if first == '天' then TianNamed(second)
    else if first in "紫太武廉贪巨七破" then MajorLeadNamed(first, second)
    else if first in "文左右禄" then AuxLeadNamed(first, second)
    else MaleficNamed(first, second)
  }

  /** The stars whose names begin with 天. */
  function TianNamed(second: char): (r: Option<Star>)
    ensures r.Some? ==> r.value.Name()[0] == '天' && r.value.Name()[1] == second
  {
    match second
    case '机' => Some(TianJi) case '同' => Some(TianTong) case '府' => Some(TianFu)
    case '相' => Some(TianXiang) case '梁' => Some(TianLiang) case '魁' => Some(TianKui)
    case '钺' => Some(TianYue) case '马' => Some(TianMa) case _ => None
  }

  /** The other major stars, by first character. */
  function MajorLeadNamed(first: char, second: char): (r: Option<Star>)
    ensures r.Some? ==> r.value.Name()[0] == first && r.value.Name()[1] == second
  {
    match first
    case '紫' => (match second case '微' => Some(ZiWei) case _ => None)
    case '太' => (match second case '阳' => Some(TaiYang) case '阴' => Some(TaiYin) case _ => None)
    case '武' => (match second case '曲' => Some(WuQu) case _ => None)
    case '廉' => (match second case '贞' => Some(LianZhen) case _ => None)
    case '贪' => (match second case '狼' => Some(TanLang) case _ => None)
    case '巨' => (match second case '门' => Some(JuMen) case _ => None)
    case '七' => (match second case '杀' => Some(QiSha) case _ => None)
    case '破' => (match second case '军' => Some(PoJun) case _ => None)
    case _ => None
  }

  /** 文昌 文曲 左辅 右弼 禄存, by first character. */
  function AuxLeadNamed(first: char, second: char): (r: Option<Star>)
    ensures r.Some? ==> r.value.Name()[0] == first && r.value.Name()[1] == second
  {
    match first
    case '文' => (match second case '昌' => Some(WenChang) case '曲' => Some(WenQu) case _ => None)
    case '左' => (match second case '辅' => Some(ZuoFu) case _ => None)
    case '右' => (match second case '弼' => Some(YouBi) case _ => None)
    case '禄' => (match second case '存' => Some(LuCun) case _ => None)
    case _ => None
  }

  /** 擎羊 陀罗 火星 铃星 地空 地劫, by first character. */
  function MaleficNamed(first: char, second: char): (r: Option<Star>)
    ensures r.Some? ==> r.value.Name()[0] == first && r.value.Name()[1] == second
  {
    match first
    case '擎' => (match second case '羊' => Some(QingYang) case _ => None)
    case '陀' => (match second case '罗' => Some(TuoLuo) case _ => None)
    case '火' => (match second case '星' => Some(HuoXing) case _ => None)
    case '铃' => (match second case '星' => Some(LingXing) case _ => None)
    case '地' => (match second case '空' => Some(DiKong) case '劫' => Some(DiJie) case _ => None)
    case _ => None
  }

  /** Every star's name leads back to the star. */
  lemma NameRoundTrip(s: Star)
    ensures StarNamed(s.Name()) == Some(s)
  {
    if s.IsMajor() {
      MajorNameRoundTrip(s);
    } else {
      AuxNameRoundTrip(s);
    }
  }

  lemma MajorNameRoundTrip(s: Star)
    requires s.IsMajor()
    ensures StarNamedPair(s.Name()[0], s.Name()[1]) == Some(s)
  {
  }

  lemma AuxNameRoundTrip(s: Star)
    requires !s.IsMajor()
    ensures StarNamedPair(s.Name()[0], s.Name()[1]) == Some(s)
  {
  }

  /** StarSystem.is_major_star: the name is one of the MAJOR names. */
  function IsMajorStar(name: string): (b: bool)
    ensures b <==> exists i :: 0 <= i < |Major| && Major[i].Name() == name
  {
    match StarNamed(name)
    case Some(s) =>
      MajorAt(s);
      assert s.IsMajor() ==> Major[s.MajorIndex()].Name() == name;
      NamesOfListed(name, Major);
      s.IsMajor()
    case None =>
      NamesOfListed(name, Major);
      false
  }

  /** StarSystem.is_aux_star: the name is one of the AUX names. */
  function IsAuxStar(name: string): (b: bool)
    ensures b <==> exists i :: 0 <= i < |Aux| && Aux[i].Name() == name
  {
    match StarNamed(name)
    case Some(s) =>
      AuxListed(s);
      assert !s.IsMajor() ==> exists i :: 0 <= i < |Aux| && Aux[i] == s;
      NamesOfListed(name, Aux);
      !s.IsMajor()
    case None =>
      NamesOfListed(name, Aux);
      false
  }

  /** A name found in a list of stars names the star StarNamed finds. */
  lemma NamesOfListed(name: string, stars: seq<Star>)
    ensures forall i :: 0 <= i < |stars| && stars[i].Name() == name ==> StarNamed(name) == Some(stars[i])
  {
    forall i | 0 <= i < |stars| && stars[i].Name() == name {
      NameRoundTrip(stars[i]);
    }
  }

  /** StarSystem.get_star_wuxing: the star's elements, or none for a name
      that is not a star. */
  function GetStarWuxing(name: string): (e: seq<char>)
    ensures e != [] <==> IsMajorStar(name) || IsAuxStar(name)
    ensures StarNamed(name).Some? ==> e == StarNamed(name).value.Elements()
  {
    match StarNamed(name)
    case Some(s) => s.Elements()
    case None => []
  }

  // ---------------------------------------------------------- major stars

  /** 紫微 and the five stars that follow it (seq1, the first six of MAJOR). */
  const ZiWeiChain: seq<Star> := [ZiWei, TianJi, TaiYang, WuQu, TianTong, LianZhen]

  /** 天府 and the seven stars that follow it (seq2, the last eight of MAJOR). */
  const TianFuChain: seq<Star> := [TianFu, TaiYin, TanLang, JuMen, TianXiang, TianLiang, QiSha, PoJun]

  /** The chains are MAJOR cut after its sixth star. */
  lemma ChainRanks(i: int)
    ensures 0 <= i < 6 ==> ZiWeiChain[i].MajorIndex() == i
    ensures 0 <= i < 6 ==> forall s: Star :: s.MajorIndex() == i ==> s == ZiWeiChain[i]
    ensures 0 <= i < 8 ==> TianFuChain[i].MajorIndex() == 6 + i
    ensures 0 <= i < 8 ==> forall s: Star :: s.MajorIndex() == 6 + i ==> s == TianFuChain[i]
  {
    assert ZiWeiChain == Major[..6] && TianFuChain == Major[6..];
    forall s: Star | s.MajorIndex() == i || s.MajorIndex() == 6 + i {
      MajorAt(s);
    }
  }

  /** Where a major star goes, given the 紫微 sector and the direction: star
      i of the 紫微 chain at 紫微 + direction * i, star i of the 天府 chain at
      天府 - direction * i, with 天府 opposite 紫微. */
  function MajorSector(s: Star, ziPos: int, direction: int): (p: int)
    requires s.IsMajor()
    ensures 0 <= p < 12
  {
    var i := s.MajorIndex();
    if i < 6 then (ziPos + direction * i) % 12
    else ((ziPos + 6) % 12 - direction * (i - 6)) % 12
  }

  /** A dictionary that holds exactly the major stars, each at its sector. */
  ghost predicate IsMajorLayout(m: map<Star, int>, ziPos: int, direction: int) {
    && (forall s :: s in m <==> s.IsMajor())
    && (forall s :: s in m ==> m[s] == MajorSector(s, ziPos, direction))
  }

  /** The 紫微 sector of arrange_major_stars, with Python's floored % for
      the inner remainder (the bureau may be negative). */
  function ZiWeiPosition(day: int, bureau: int): (p: int)
    requires bureau != 0
    ensures 0 <= p < 12
  {
    (bureau * PyMod(day - 1, bureau)) % 12
  }

  /** 阳男 and 阴女 go forward (+1); every other label goes backward (-1). */
  function Direction(yinYang: string): (d: int)
    ensures d == 1 <==> yinYang == "阳男" || yinYang == "阴女"
    ensures d == 1 || d == -1
  {
    if yinYang in ["阳男", "阴女"] then 1 else -1
  }

  /** arrange_major_stars: a zero bureau is a division by zero; otherwise the
      dictionary is filled chain by chain and ends up holding exactly the
      fourteen major stars, each at its MajorSector. */
  method ArrangeMajorStars(day: int, bureau: int, yinYang: string) returns (r: Result<map<Star, int>>)
    ensures bureau == 0 ==> r == Err(ZeroDivisionError)
    ensures bureau != 0 ==> r.Ok? && IsMajorLayout(r.value, ZiWeiPosition(day, bureau), Direction(yinYang))
  {
    if bureau == 0 {
      return Err(ZeroDivisionError);
    }
    var ziPos := (bureau * PyMod(day - 1, bureau)) % 12;
    var major: map<Star, int> := map[];
    var seq1 := ZiWeiChain;
    var direction := if yinYang in ["阳男", "阴女"] then 1 else -1;
    for i := 0 to |seq1|
      invariant Placed(major, i, ziPos, direction)
    {
      ZiWeiStep(major, i, ziPos, direction);
      major := major[seq1[i] := (ziPos + direction * i) % 12];
    }
    var tianfuPos := (ziPos + 6) % 12;
    var seq2 := TianFuChain;
    for i := 0 to |seq2|
      invariant Placed(major, 6 + i, ziPos, direction)
    {
      TianFuStep(major, i, ziPos, direction);
      major := major[seq2[i] := (tianfuPos - direction * i) % 12];
    }
    PlacedAll(major, ziPos, direction);
    return Ok(major);
  }

  /** Step i of the first loop: 紫微 chain star i goes to 紫微 + d*i. */
  lemma ZiWeiStep(m: map<Star, int>, i: int, ziPos: int, direction: int)
    requires 0 <= i < 6 && Placed(m, i, ziPos, direction)
    ensures Placed(m[ZiWeiChain[i] := (ziPos + direction * i) % 12], i + 1, ziPos, direction)
  {
    ChainsAreMajor(i);
    MajorRank(i);
    PlaceNext(m, i, ziPos, direction, (ziPos + direction * i) % 12);
  }

  /** Step i of the second loop: 天府 chain star i goes to 天府 - d*i. */
  lemma TianFuStep(m: map<Star, int>, i: int, ziPos: int, direction: int)
    requires 0 <= i < 8 && Placed(m, 6 + i, ziPos, direction)
    ensures Placed(m[TianFuChain[i] := ((ziPos + 6) % 12 - direction * i) % 12], 6 + i + 1, ziPos, direction)
  {
    ChainsAreMajor(i);
    MajorRank(6 + i);
    PlaceNext(m, 6 + i, ziPos, direction, ((ziPos + 6) % 12 - direction * i) % 12);
  }

  /** All fourteen placed is a major layout. */
  lemma PlacedAll(m: map<Star, int>, ziPos: int, direction: int)
    requires Placed(m, 14, ziPos, direction)
    ensures IsMajorLayout(m, ziPos, direction)
  {
  }

  /** The first n major stars (by MAJOR order) are placed, each at its
      sector, and no other star is. */
  ghost predicate Placed(m: map<Star, int>, n: int, ziPos: int, direction: int) {
    && n <= 14
    && (forall s: Star :: s in m <==> s.MajorIndex() < n)
    && (forall s :: s in m ==> m[s] == MajorSector(s, ziPos, direction))
  }

  /** Placing major star n at its sector extends a placement of the first n. */
  lemma PlaceNext(m: map<Star, int>, n: int, ziPos: int, direction: int, p: int)
    requires 0 <= n < 14 && Placed(m, n, ziPos, direction)
    requires p == MajorSector(Major[n], ziPos, direction)
    ensures Placed(m[Major[n] := p], n + 1, ziPos, direction)
  {
    MajorRank(n);
    forall s: Star
      ensures s.MajorIndex() == n ==> s == Major[n]
    {
      MajorAt(s);
    }
  }

  /** Major star n has rank n. */
  lemma MajorRank(n: int)
    requires 0 <= n < 14
    ensures Major[n].MajorIndex() == n
  {
  }

  /** The 紫微 chain is the first six of MAJOR, the 天府 chain the last eight. */
  lemma ChainsAreMajor(i: int)
    ensures 0 <= i < 6 ==> ZiWeiChain[i] == Major[i]
    ensures 0 <= i < 8 ==> TianFuChain[i] == Major[6 + i]
  {
  }

  /** Star i of the 紫微 chain sits at 紫微 + d*i; star i of the 天府 chain
      at 紫微 + 6 - d*i. */
  lemma {:induction false} ChainOffsets(ziPos: int, direction: int, i: int)
    ensures 0 <= i < 6 ==> MajorSector(ZiWeiChain[i], ziPos, direction) == (ziPos + direction * i) % 12
    ensures 0 <= i < 8 ==> MajorSector(TianFuChain[i], ziPos, direction) == (ziPos + 6 - direction * i) % 12
  {
    ChainRanks(i);
    if 0 <= i < 8 {
      var x := ziPos + 6;
      Shift12(x % 12 - direction * i, x / 12);
    }
  }

  /** 天府 always sits opposite 紫微. */
  lemma {:induction false} TianFuOpposite(ziPos: int, direction: int)
    ensures MajorSector(TianFu, ziPos, direction) == (MajorSector(ZiWei, ziPos, direction) + 6) % 12
  {
    ChainOffsets(ziPos, direction, 0);
    Shift12(ziPos % 12 + 6, ziPos / 12);
  }

  /** Two sectors a whole number of steps 1..11 apart differ. */
  lemma ApartDiffer(x: int, k: int)
    requires 0 < k < 12
    ensures (x + k) % 12 != x % 12
  {
    var q, r := x / 12, x % 12;
    if r + k < 12 {
      Mod12(x + k, q, r + k);
    } else {
      Mod12(x + k, q + 1, r + k - 12);
    }
  }

  /** Stepping one way round the ring, 1..11 steps apart, never meets. */
  lemma StepsDiffer(a: int, direction: int, i: int, j: int)
    requires direction == 1 || direction == -1
    requires 0 <= i < j < 12
    ensures (a + direction * i) % 12 != (a + direction * j) % 12
  {
    if direction == 1 {
      ApartDiffer(a + i, j - i);
    } else {
      ApartDiffer(a - j, j - i);
    }
  }

  /** Within each chain no two stars share a sector. */
  lemma {:induction false} ChainsDistinct(ziPos: int, direction: int, i: int, j: int)
    requires direction == 1 || direction == -1
    requires 0 <= i < j
    ensures j < 6 ==> MajorSector(ZiWeiChain[i], ziPos, direction) != MajorSector(ZiWeiChain[j], ziPos, direction)
    ensures j < 8 ==> MajorSector(TianFuChain[i], ziPos, direction) != MajorSector(TianFuChain[j], ziPos, direction)
  {
    ChainRanks(i);
    ChainRanks(j);
    if j < 6 {
      StepsDiffer(ziPos, direction, i, j);
    }
    if j < 8 {
      var a := (ziPos + 6) % 12;
      assert a - direction * i == a + (-direction) * i;
      assert a - direction * j == a + (-direction) * j;
      StepsDiffer(a, -direction, i, j);
    }
  }

  /** Reversing the direction mirrors every star about its chain's anchor
      (紫微 for the first chain, 天府 for the second): a star at anchor + k
      moves to anchor - k. */
  lemma {:induction false} DirectionMirrors(ziPos: int, direction: int, i: int)
    requires 0 <= ziPos < 12
    ensures 0 <= i < 6 ==>
      MajorSector(ZiWeiChain[i], ziPos, -direction)
        == (2 * ziPos - MajorSector(ZiWeiChain[i], ziPos, direction)) % 12
    ensures 0 <= i < 8 ==>
      MajorSector(TianFuChain[i], ziPos, -direction)
        == (2 * ((ziPos + 6) % 12) - MajorSector(TianFuChain[i], ziPos, direction)) % 12
  {
    ChainRanks(i);
    if 0 <= i < 6 {
      var x := ziPos + direction * i;
      assert MajorSector(ZiWeiChain[i], ziPos, -direction) == (ziPos - direction * i) % 12;
      Shift12(ziPos - direction * i, x / 12);
    }
    if 0 <= i < 8 {
      var a := (ziPos + 6) % 12;
      var x := a - direction * i;
      assert MajorSector(TianFuChain[i], ziPos, -direction) == (a + direction * i) % 12;
      Shift12(a + direction * i, x / 12);
    }
  }

  // ------------------------------------------------------ auxiliary stars

  /** Where an auxiliary star is: a sector 0..11, or, for the 天马 fallback,
      the name of a palace (the source stores Palace.value there). */
  datatype Placement = Sector(n: int) | PalaceName(name: string)

  // The year-stem tables; a stem missing from a table reads as sector 0.

  function LuCunOf(stem: char): (n: int)
    ensures 0 <= n < 12
  {
    match stem
    case '甲' => 2 case '乙' => 3 case '丙' => 4 case '丁' => 6 case '戊' => 7
    case '己' => 8 case '庚' => 9 case '辛' => 10 case '壬' => 0 case '癸' => 1
    case _ => 0
  }

  function WenChangOf(stem: char): (n: int)
    ensures 0 <= n < 12
  {
    match stem
    case '甲' => 0 case '乙' => 11 case '丙' => 10 case '丁' => 9 case '戊' => 8
    case '己' => 7 case '庚' => 6 case '辛' => 5 case '壬' => 4 case '癸' => 3
    case _ => 0
  }

  function ZuoFuOf(stem: char): (n: int)
    ensures 0 <= n < 12
  {
    match stem
    case '甲' => 1 case '乙' => 0 case '丙' => 11 case '丁' => 10 case '戊' => 9
    case '己' => 8 case '庚' => 7 case '辛' => 6 case '壬' => 5 case '癸' => 4
    case _ => 0
  }

  function QingYangOf(stem: char): (n: int)
    ensures 0 <= n < 12
  {
    match stem
    case '甲' => 0 case '乙' => 11 case '丙' => 10 case '丁' => 9 case '戊' => 8
    case '己' => 7 case '庚' => 6 case '辛' => 5 case '壬' => 4 case '癸' => 3
    case _ => 0
  }

  function HuoLingOf(stem: char): (n: int)
    ensures 0 <= n < 12
  {
    match stem
    case '甲' => 7 case '乙' => 8 case '丙' => 9 case '丁' => 10 case '戊' => 11
    case '己' => 0 case '庚' => 1 case '辛' => 2 case '壬' => 3 case '癸' => 4
    case _ => 0
  }

  function TianKuiOf(stem: char): (n: int)
    ensures 0 <= n < 12
  {
    match stem
    case '甲' => 1 case '乙' => 0 case '丙' => 9 case '丁' => 8 case '戊' => 7
    case '己' => 6 case '庚' => 5 case '辛' => 4 case '壬' => 11 case '癸' => 10
    case _ => 0
  }

  /** The 文昌 and 擎羊 tables are the same table. */
  lemma WenChangIsQingYang(stem: char)
    ensures WenChangOf(stem) == QingYangOf(stem)
  {
  }

  /** A character that is not a stem reads as sector 0 in every table. */
  lemma UnknownStemReadsZero(stem: char)
    requires stem !in TianGan
    ensures LuCunOf(stem) == 0 && WenChangOf(stem) == 0 && ZuoFuOf(stem) == 0
    ensures QingYangOf(stem) == 0 && HuoLingOf(stem) == 0 && TianKuiOf(stem) == 0
  {
  }

  /** month_zhi_map: the month branches, from 寅 for the first month. */
  const MonthZhiMap: string := "寅卯辰巳午未申酉戌亥子丑"

  /** month_zhi_map.index(c). */
  function MonthZhiIndex(c: char): (i: int)
    requires c in MonthZhiMap
    ensures 0 <= i < 12 && MonthZhiMap[i] == c
  {
    match c
    case '寅' => 0 case '卯' => 1 case '辰' => 2 case '巳' => 3 case '午' => 4 case '未' => 5
    case '申' => 6 case '酉' => 7 case '戌' => 8 case '亥' => 9 case '子' => 10 case '丑' => 11
  }

  /** The month branches are the branches, two places on. */
  lemma MonthZhiMapShift(k: int)
    requires 0 <= k < 12
    ensures MonthZhiMap[k] == DiZhi[(k + 2) % 12]
  {
  }

  /** The branches of the four horse months 寅申巳亥 (as one-character strings). */
  predicate IsHorseMonth(monthZhi: string) {
    |monthZhi| == 1 && monthZhi[0] in "寅申巳亥"
  }

  /** 天马: in a horse month it is read from {寅:6, 申:0, 巳:9, 亥:3}, which is
      the month's place in month_zhi_map moved six places on; in any
      other month it is the name of the life palace for that month (counted
      from 寅) and the given hour; a month that is not a branch is a
      ValueError, and so is an hour the life palace rejects. */
  function TianMaOf(monthZhi: string, hourZhi: string): (r: Result<Placement>)
    ensures IsHorseMonth(monthZhi) ==>
      r.Ok? && r.value == Sector((MonthZhiIndex(monthZhi[0]) + 6) % 12)
    ensures !IsHorseMonth(monthZhi) && !IsBranch(monthZhi) ==> r == Err(ValueError(NotABranch))
    ensures !IsHorseMonth(monthZhi) && IsBranch(monthZhi) ==>
      var life := CalcLifeBodyPalace(MonthZhiIndex(monthZhi[0]) + 1, hourZhi);
      && (r.Ok? <==> life.Ok?)
      && (r.Ok? ==> r == Ok(PalaceName(life.value.0.Value())))
      && (r.Err? ==> r.error == ValueError(BadHourBranch))
  {
    if IsHorseMonth(monthZhi) then
      Ok(Sector(match monthZhi[0] case '寅' => 6 case '申' => 0 case '巳' => 9 case _ => 3))
    else if !(|monthZhi| == 1 && monthZhi[0] in MonthZhiMap) then
      Err(ValueError(NotABranch))
    else
      var life :- CalcLifeBodyPalace(MonthZhiIndex(monthZhi[0]) + 1, hourZhi);
      Ok(PalaceName(life.0.Value()))
  }

  /** arrange_aux_stars. */
  function ArrangeAuxStars(yearGz: string, monthZhi: string, hourZhi: string): (r: Result<map<Star, Placement>>)
    ensures |yearGz| == 0 ==> r == Err(IndexError)
    ensures |yearGz| > 0 ==> (r.Err? <==> TianMaOf(monthZhi, hourZhi).Err?)
    ensures |yearGz| > 0 && r.Err? ==> r.error == TianMaOf(monthZhi, hourZhi).error
    ensures r.Ok? ==> r.value.Keys == AuxKeys
    ensures r.Ok? ==>
      && r.value[LuCun] == Sector(LuCunOf(yearGz[0]))
      && r.value[WenChang] == Sector(WenChangOf(yearGz[0]))
      && r.value[ZuoFu] == Sector(ZuoFuOf(yearGz[0]))
      && r.value[QingYang] == Sector(QingYangOf(yearGz[0]))
      && r.value[HuoXing] == Sector(HuoLingOf(yearGz[0]))
      && r.value[TianKui] == Sector(TianKuiOf(yearGz[0]))
      && r.value[TianMa] == TianMaOf(monthZhi, hourZhi).value
    ensures r.Ok? ==>
      && r.value[WenQu] == Sector((r.value[WenChang].n + 6) % 12)
      && r.value[YouBi] == Sector((r.value[ZuoFu].n + 6) % 12)
      && r.value[TuoLuo] == Sector((r.value[QingYang].n + 6) % 12)
      && r.value[LingXing] == Sector((r.value[HuoXing].n + 6) % 12)
      && r.value[TianYue] == Sector((r.value[TianKui].n + 6) % 12)
      && r.value[DiKong] == Sector(9) && r.value[DiJie] == Sector(3)
  {
    if |yearGz| == 0 then Err(IndexError)
    else
      var yearGan := yearGz[0];
      var tianMaPos :- TianMaOf(monthZhi, hourZhi);
      var luCunPos := LuCunOf(yearGan);
      var wenChangPos := WenChangOf(yearGan);
      var zuoFuPos := ZuoFuOf(yearGan);
      var qingYangPos := QingYangOf(yearGan);
      var huoPos := HuoLingOf(yearGan);
      var tianKuiPos := TianKuiOf(yearGan);
      Ok(AuxDict(luCunPos, tianMaPos, wenChangPos, zuoFuPos, qingYangPos, huoPos, tianKuiPos))
  }

  /** The dictionary arrange_aux_stars returns, from the positions it has
      looked up: each partner six sectors on, 地空 and 地劫 fixed. */
  function AuxDict(luCunPos: int, tianMaPos: Placement, wenChangPos: int, zuoFuPos: int,
                   qingYangPos: int, huoPos: int, tianKuiPos: int): (m: map<Star, Placement>)
    ensures m.Keys == AuxKeys
    ensures
      && m[LuCun] == Sector(luCunPos) && m[TianMa] == tianMaPos
      && m[WenChang] == Sector(wenChangPos) && m[ZuoFu] == Sector(zuoFuPos)
      && m[QingYang] == Sector(qingYangPos) && m[HuoXing] == Sector(huoPos)
      && m[TianKui] == Sector(tianKuiPos)
    ensures
      && m[WenQu] == Sector((wenChangPos + 6) % 12)
      && m[YouBi] == Sector((zuoFuPos + 6) % 12)
      && m[TuoLuo] == Sector((qingYangPos + 6) % 12)
      && m[LingXing] == Sector((huoPos + 6) % 12)
      && m[TianYue] == Sector((tianKuiPos + 6) % 12)
      && m[DiKong] == Sector(9) && m[DiJie] == Sector(3)
  {
    var wenQuPos := (wenChangPos + 6) % 12;
    var youBiPos := (zuoFuPos + 6) % 12;
    var tuoLuoPos := (qingYangPos + 6) % 12;
    var lingPos := (huoPos + 6) % 12;
    var tianYuePos := (tianKuiPos + 6) % 12;
    map[
      WenChang := Sector(wenChangPos), WenQu := Sector(wenQuPos),
      ZuoFu := Sector(zuoFuPos), YouBi := Sector(youBiPos),
      TianKui := Sector(tianKuiPos), TianYue := Sector(tianYuePos),
      LuCun := Sector(luCunPos), TianMa := tianMaPos,
      QingYang := Sector(qingYangPos), TuoLuo := Sector(tuoLuoPos),
      HuoXing := Sector(huoPos), LingXing := Sector(lingPos),
      DiKong := Sector(9), DiJie := Sector(3)]
  }

  // ------------------------------------------------------------ all stars

  /** {**major, **aux}: every key of either, the auxiliary entry winning. */
  function Merge(major: map<Star, int>, aux: map<Star, Placement>): (m: map<Star, Placement>)
    ensures m.Keys == major.Keys + aux.Keys
    ensures forall s :: s in aux ==> m[s] == aux[s]
    ensures forall s :: s in major && s !in aux ==> m[s] == Sector(major[s])
  {
    map s | s in major.Keys + aux.Keys :: if s in aux then aux[s] else Sector(major[s])
  }

  /** arrange_all_stars: the major stars with the default 阳男 direction,
      then the auxiliary stars, merged; the errors of either pass through,
      the major stars' first. The merged dictionary holds all 28 stars, the
      major ones at their sectors and the auxiliary ones where
      arrange_aux_stars put them. */
  method ArrangeAllStars(day: int, bureau: int, yearGz: string, monthZhi: string, hourZhi: string)
    returns (r: Result<map<Star, Placement>>)
    ensures bureau == 0 ==> r == Err(ZeroDivisionError)
    ensures bureau != 0 ==> r.Err? == ArrangeAuxStars(yearGz, monthZhi, hourZhi).Err?
    ensures bureau != 0 && r.Err? ==> r.error == ArrangeAuxStars(yearGz, monthZhi, hourZhi).error
    ensures r.Ok? ==> IsFullLayout(r.value, ZiWeiPosition(day, bureau), ArrangeAuxStars(yearGz, monthZhi, hourZhi).value)
  {
    var majorStars :- ArrangeMajorStars(day, bureau, "阳男");
    var auxStars :- ArrangeAuxStars(yearGz, monthZhi, hourZhi);
    MergedLayout(majorStars, auxStars, ZiWeiPosition(day, bureau));
    return Ok(Merge(majorStars, auxStars));
  }

  /** All 28 stars present, each major star at its sector (placed forward)
      and each auxiliary star as the auxiliary dictionary has it. */
  ghost predicate IsFullLayout(m: map<Star, Placement>, ziPos: int, aux: map<Star, Placement>) {
    && (forall s: Star :: s in m)
    && (forall s: Star :: s.IsMajor() ==> m[s] == Sector(MajorSector(s, ziPos, 1)))
    && (forall s: Star :: !s.IsMajor() && s in aux ==> m[s] == aux[s])
  }

  lemma MergedLayout(major: map<Star, int>, aux: map<Star, Placement>, ziPos: int)
    requires IsMajorLayout(major, ziPos, 1) && aux.Keys == AuxKeys
    ensures IsFullLayout(Merge(major, aux), ziPos, aux)
  {
    var m := Merge(major, aux);
    forall s: Star
      ensures s in m
      ensures s.IsMajor() ==> m[s] == Sector(MajorSector(s, ziPos, 1))
    {
      AuxKeysListed(s);
    }
  }

  // -------------------------------------------------- the file's helpers

  /** GanZhiConverter.get_hour_zhi of the star module: ((hour - 1) % 24) // 2. */
  function LocalHourZhi(hour: int): (z: string)
    ensures IsBranch(z)
  {
    [DiZhi[((hour - 1) % 24) / 2]]
  }

  /** The star module's hour helper runs two hours behind the palace
      locator's: hour 0 gives 亥 here and 子 there. */
  lemma LocalHourLags(hour: int)
    ensures LocalHourZhi(hour) == GetHourZhi(IntHour(hour - 2)).value
    ensures LocalHourZhi(0) == "亥" && GetHourZhi(IntHour(0)) == Ok("子")
  {
    Mod24(-1, -1, 23);
    Mod24(1, 0, 1);
  }

  /** GanZhiConverter.get_month_zhi of the star module: (month - 1) % 12. */
  function LocalMonthZhi(month: int): (z: string)
    ensures IsBranch(z)
  {
    [DiZhi[(month - 1) % 12]]
  }

  /** The star module's month helper gives 子 for the first month, two
      branches before the 寅 that month_zhi_map and the month pair give. */
  lemma {:induction false} LocalMonthLags(yearGz: string, month: int)
    ensures LocalMonthZhi(1) == "子"
    ensures LocalMonthZhi(month + 2) == [MonthZhiMap[(month - 1) % 12]]
    ensures MonthGanZhi(yearGz, month).Ok? ==> MonthGanZhi(yearGz, month).value[1] == LocalMonthZhi(month + 2)[0]
  {
    var x := month - 1;
    MonthZhiMapShift(x % 12);
    Shift12(x % 12 + 2, x / 12);
  }
}
