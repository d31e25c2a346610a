/** The four transformations (四化): the year stem's 禄 权 科 忌 stars and the
    palace stem's self-transformations (自化禄, 自化忌). */
module FourTransforms {
  import opened Outcomes
  import opened GanZhi
  import opened Stars

  /** The four transformations, in the order the source zips them. */
  datatype Kind = Lu | Quan | Ke | Ji {
    function Index(): (i: int)
      ensures 0 <= i < 4
    {
      match this case Lu => 0 case Quan => 1 case Ke => 2 case Ji => 3
    }

    function Name(): string {
      match this case Lu => "禄" case Quan => "权" case Ke => "科" case Ji => "忌"
    }
  }

  const Kinds: seq<Kind> := [Lu, Quan, Ke, Ji]

  /** A key of calc's result: 年干禄 … 年干忌, or 自化禄 / 自化忌. */
  datatype Key = YearKey(kind: Kind) | SelfKey(kind: Kind) {
    function Label(): string {
      match this
      case YearKey(k) => "年干" + k.Name()
      case SelfKey(k) => "自化" + k.Name()
    }
  }

  /** FourTransform.YEAR: the 禄 权 科 忌 stars of each year stem. */
  function YearStars(stem: char): (r: Option<seq<Star>>)
    ensures r.Some? ==> |r.value| == 4
  {
    match stem
    case '甲' => Some([LianZhen, PoJun, WuQu, TaiYang])
    case '乙' => Some([TianJi, TianLiang, ZiWei, TaiYin])
    case '丙' => Some([TianTong, TianJi, WenChang, LianZhen])
    case '丁' => Some([TaiYin, TianTong, TianJi, JuMen])
    case '戊' => Some([TanLang, TaiYin, YouBi, TianJi])
    case '己' => Some([WuQu, TanLang, TianLiang, WenQu])
    case '庚' => Some([TaiYang, WuQu, TaiYin, TianTong])
    case '辛' => Some([JuMen, TaiYang, WenQu, WenChang])
    case '壬' => Some([TianLiang, ZiWei, ZuoFu, WuQu])
    case '癸' => Some([PoJun, JuMen, TaiYin, TanLang])
    case _ => None
  }

  /** FourTransform.PALACE: the 自化禄 and 自化忌 stars of each palace stem. */
  function PalaceStars(stem: char): (r: Option<seq<Star>>)
    ensures r.Some? ==> |r.value| == 2
  {
    match stem
    case '甲' => Some([LianZhen, TaiYang])
    case '乙' => Some([TianJi, TaiYin])
    case '丙' => Some([TianTong, LianZhen])
    case '丁' => Some([TaiYin, JuMen])
    case '戊' => Some([TanLang, TianJi])
    case '己' => Some([WuQu, WenQu])
    case '庚' => Some([TaiYang, TianTong])
    case '辛' => Some([JuMen, WenChang])
    case '壬' => Some([TianLiang, WuQu])
    case '癸' => Some([PoJun, TanLang])
    case _ => None
  }

  /** Both tables are keyed by exactly the ten stems. */
  lemma TableKeys(c: char)
    ensures YearStars(c).Some? <==> c in TianGan
    ensures PalaceStars(c).Some? <==> c in TianGan
  {
  }

  /** Each palace stem's self-transformations are the 禄 and the 忌 of the
      same stem in the year table. */
  lemma PalaceIsYearEnds(c: char)
    ensures PalaceStars(c).Some? <==> YearStars(c).Some?
    ensures PalaceStars(c).Some? ==>
      PalaceStars(c).value == [YearStars(c).value[0], YearStars(c).value[3]]
  {
  }

  /** What calc returns for a year stem and a palace stem: the year keys
      exactly when the year stem is in the table, each bound to its star of
      the year row, and both self keys bound to the palace row. */
  ghost predicate IsTransformResult(res: map<Key, Star>, yearGan: char, palaceGan: char) {
    && PalaceStars(palaceGan).Some?
    && (forall k :: k in res <==>
          (k.YearKey? && YearStars(yearGan).Some?) || k == SelfKey(Lu) || k == SelfKey(Ji))
    && (forall kind :: YearKey(kind) in res ==> res[YearKey(kind)] == YearStars(yearGan).value[kind.Index()])
    && res[SelfKey(Lu)] == PalaceStars(palaceGan).value[0]
    && res[SelfKey(Ji)] == PalaceStars(palaceGan).value[1]
  }

  /** FourTransform.calc: an empty year pair and a palace stem that is not a
      key of PALACE are ValueErrors; otherwise the result is built key by
      key. Only the first character of the year pair is read. */
  method Calc(yearGz: string, palaceGan: string) returns (r: Result<map<Key, Star>>)
    ensures |yearGz| == 0 ==> r == Err(ValueError(EmptyYear))
    ensures |yearGz| > 0 && !IsStem(palaceGan) ==> r == Err(ValueError(BadPalaceStem))
    ensures |yearGz| > 0 && IsStem(palaceGan) ==> r.Ok? && IsTransformResult(r.value, yearGz[0], palaceGan[0])
  {
    if |yearGz| == 0 {
      return Err(ValueError(EmptyYear));
    }
    if !(|palaceGan| == 1 && PalaceStars(palaceGan[0]).Some?) {
      if |palaceGan| == 1 {
        TableKeys(palaceGan[0]);
      }
      return Err(ValueError(BadPalaceStem));
    }
    TableKeys(palaceGan[0]);
    var res: map<Key, Star> := map[];
    var yearGan := yearGz[0];
    if YearStars(yearGan).Some? {
      var row := YearStars(yearGan).value;
      for i := 0 to |Kinds|
        invariant forall k :: k in res <==> k.YearKey? && k.kind.Index() < i
        invariant forall k :: k in res ==> res[k] == row[k.kind.Index()]
      {
        res := res[YearKey(Kinds[i]) := row[i]];
      }
    }
    var stars := PalaceStars(palaceGan[0]).value;
    if |stars| >= 1 {
      res := res[SelfKey(Lu) := stars[0]];
    }
    if |stars| >= 2 {
      res := res[SelfKey(Ji) := stars[1]];
    }
    return Ok(res);
  }

  /** With a year stem in the table the result has the six keys 年干禄 年干权
      年干科 年干忌 自化禄 自化忌; otherwise only the two self keys. */
  lemma TransformKeys(res: map<Key, Star>, yearGan: char, palaceGan: char)
    requires IsTransformResult(res, yearGan, palaceGan)
    ensures YearStars(yearGan).Some? ==>
      res.Keys == {YearKey(Lu), YearKey(Quan), YearKey(Ke), YearKey(Ji), SelfKey(Lu), SelfKey(Ji)}
    ensures YearStars(yearGan).None? ==> res.Keys == {SelfKey(Lu), SelfKey(Ji)}
  {
  }

  /** Transforming a year by its own stem, as calculate does, gives 自化禄 =
      年干禄 and 自化忌 = 年干忌. */
  lemma SelfMatchesYear(res: map<Key, Star>, stem: char)
    requires IsTransformResult(res, stem, stem)
    ensures res[SelfKey(Lu)] == res[YearKey(Lu)]
    ensures res[SelfKey(Ji)] == res[YearKey(Ji)]
  {
    PalaceIsYearEnds(stem);
  }

  /** FourTransform.get_valid_year_gans: the keys of YEAR in table order. */
  function GetValidYearGans(): (r: seq<string>)
    ensures |r| == 10
    ensures forall i :: 0 <= i < 10 ==> r[i] == [TianGan[i]]
    ensures forall s :: s in r <==> |s| == 1 && YearStars(s[0]).Some?
  {
    var r := seq(10, i requires 0 <= i < 10 => [TianGan[i]]);
    StemsListed(r);
    assert forall c: char :: YearStars(c).Some? <==> c in TianGan by {
      forall c: char {
        TableKeys(c);
      }
    }
    r
  }

  /** FourTransform.get_valid_palace_gans: the keys of PALACE in table
      order, which is the same list. */
  function GetValidPalaceGans(): (r: seq<string>)
    ensures r == GetValidYearGans()
    ensures forall s :: s in r <==> |s| == 1 && PalaceStars(s[0]).Some?
  {
    var r := seq(10, i requires 0 <= i < 10 => [TianGan[i]]);
    StemsListed(r);
    assert forall c: char :: PalaceStars(c).Some? <==> c in TianGan by {
      forall c: char {
        TableKeys(c);
      }
    }
    r
  }

  /** The one-character strings of the stems, in order, are the stems. */
  lemma StemsListed(r: seq<string>)
    requires |r| == 10 && forall i :: 0 <= i < 10 ==> r[i] == [TianGan[i]]
    ensures forall s :: s in r <==> IsStem(s)
  {
    forall s | IsStem(s)
      ensures s in r
    {
      var k := StemIndex(s[0]);
      assert r[k] == s;
    }
  }
}
