/** ZhongZhouCalculator.calculate: the natal chart pipeline. A birth record
    flows through the year, month, day and hour pairs, the bureau number,
    the life and body palaces, the major and auxiliary stars, the four
    transformations, the sixty-star patterns and the element balance.

    The solar date and the lunar calendar are outside the model: calculate
    is given the day count of datetime.date(year, month, day) from
    1899-12-22 (None when datetime rejects the date) and what the lunar
    calendar library returns for the date, a lunar (month, day) or the
    exception it raises. */
module ZhongZhou {
  import opened Outcomes
  import opened GanZhi
  import opened Palaces
  import opened Stars
  import opened FourTransforms
  import opened SixtyPatterns
  import opened WuxingBalance
  import opened TimeConversion

  /** The birth dictionary: each key may be missing. */
  datatype Birth = Birth(
    year: Option<int>, month: Option<int>, day: Option<int>,
    hour: Option<HourInput>, gender: Option<string>)

  /** The dictionary calculate returns. */
  datatype Chart = Chart(
    yearGanzhi: string, monthGanzhi: string, dayGanzhi: string, hourGanzhi: string,
    wuxingBureau: string, lifePalace: string, bodyPalace: string,
    majorPos: map<Star, int>, auxPos: map<Star, Placement>,
    fourTrans: map<Key, Star>, patterns: seq<PatternEntry>, wuxingAnalysis: Analysis)

  /** calculate's two except clauses: a ValueError comes back as a
      ValueError ("参数错误: ..."), every other exception as a
      RuntimeError ("命盘计算失败: ..."). */
  function Reraise(e: Error): (r: Error)
    ensures r.ValueError? <==> e.ValueError?
    ensures r.ValueError? ==> r.fault == Param(e.fault)
    ensures r.RuntimeError? ==> r.cause == e
  {
    match e
    case ValueError(f) => ValueError(Param(f))
    case _ => RuntimeError(e)
  }

  /** The hour branch calculate works with: an int hour through the
      hour_zhi_map table, a string hour as it is. */
  function HourBranchOf(hour: HourInput): (z: string)
    ensures hour.IntHour? ==> IsBranch(z) && GetHourZhi(hour) == Ok(z)
    ensures hour.TextHour? ==> z == hour.s
  {
    match hour
    case IntHour(h) => ToDiZhi(h)
    case TextHour(s) => s
  }

  /** The 阴阳 and gender label calculate builds: 阳 for the yang stems
      甲 丙 戊 庚 壬, and 男 for the gender "male". */
  function YinYangLabel(yearGan: char, gender: string): (yy: string)
    ensures |yy| == 2
    ensures yy[0] == '阳' <==> yearGan in "甲丙戊庚壬"
    ensures yy[1] == '男' <==> gender == "male"
  {
    var isYang := yearGan in "甲丙戊庚壬";
    (if isYang then "阳" else "阴") + (if gender == "male" then "男" else "女")
  }

  /** The first exception calculate meets, before it is re-raised, or None
      when the chart is built: a missing key (checked in the order year,
      month, day, hour), a date datetime rejects, a string hour that is not
      a branch (get_hour_ganzhi rejects it), an exception of the lunar
      calendar library, and a lunar month outside 1..12. No other stage can
      fail. */
  function PipelineFailure(birth: Birth, days: Option<int>, lunar: Result<(int, int)>): Option<Error> {
    if birth.year.None? then Some(ValueError(MissingKey("year")))
    else if birth.month.None? then Some(ValueError(MissingKey("month")))
    else if birth.day.None? then Some(ValueError(MissingKey("day")))
    else if birth.hour.None? then Some(ValueError(MissingKey("hour")))
    else if days.None? then Some(ValueError(BadDate))
    else if birth.hour.value.TextHour? && !IsBranch(birth.hour.value.s) then Some(ValueError(NotABranch))
    else if lunar.Err? then Some(lunar.error)
    else if !(1 <= lunar.value.0 <= 12) then Some(ValueError(MonthOutOfRange))
    else None
  }

  /** The chart of a birth: each field is the value of its stage, the
      major stars placed forward (the default 阳男) from the 紫微 sector of
      the lunar day and the year's bureau number, the four transformations
      of the year stem for both the year and the palace stem. */
  ghost predicate IsChartOf(c: Chart, year: int, month: int, days: int, hour: HourInput,
                            lunarMonth: int, lunarDay: int) {
    var yp := YearGanZhi(year);
    var hourZhi := HourBranchOf(hour);
    var mgz := MonthGanZhi(yp.gz, month);
    var palaces := CalcLifeBodyPalace(lunarMonth, hourZhi);
    && c.yearGanzhi == yp.gz && c.wuxingBureau == yp.bureau
    && mgz.Ok? && |mgz.value| == 2 && c.monthGanzhi == mgz.value
    && c.dayGanzhi == DayGanZhi(days)
    && HourGanZhi(c.dayGanzhi, hourZhi) == Ok(c.hourGanzhi)
    && palaces.Ok?
    && c.lifePalace == palaces.value.0.Value() && c.bodyPalace == palaces.value.1.Value()
    && |yp.bureau| > 0
    && IsStarsOf(c.majorPos, c.auxPos, c.fourTrans, c.patterns, c.wuxingAnalysis,
                 yp.gz, [mgz.value[1]], hourZhi, ZiWeiPosition(lunarDay, ElementNumber(yp.bureau[0])))
  }

  /** The star half of a chart: the major stars placed forward from the
      紫微 sector ziPos, the auxiliary stars of the year, month and hour,
      the four transformations of the year stem for both the year and the
      palace stem, the patterns and the element balance of the major
      stars. */
  ghost predicate IsStarsOf(majorPos: map<Star, int>, auxPos: map<Star, Placement>,
                            fourTrans: map<Key, Star>, patterns: seq<PatternEntry>, analysis: Analysis,
                            yearGz: string, monthZhi: string, hourZhi: string, ziPos: int) {
    && IsMajorLayout(majorPos, ziPos, 1)
    && ArrangeAuxStars(yearGz, monthZhi, hourZhi) == Ok(auxPos)
    && |yearGz| > 0 && IsTransformResult(fourTrans, yearGz[0], yearGz[0])
    && patterns == Matches(majorPos, Patterns)
    && AnalysisOf(Tally(majorPos, |Major|)) == Ok(analysis)
  }

  /** ZhongZhouCalculator.calculate. */
  method Calculate(birth: Birth, days: Option<int>, lunar: Result<(int, int)>) returns (r: Result<Chart>)
    ensures PipelineFailure(birth, days, lunar).Some? ==>
      r == Err(Reraise(PipelineFailure(birth, days, lunar).value))
    ensures PipelineFailure(birth, days, lunar).None? ==>
      r.Ok? && IsChartOf(r.value, birth.year.value, birth.month.value, days.value, birth.hour.value,
                         lunar.value.0, lunar.value.1)
  {
    if birth.year.None? {
      return Err(Reraise(ValueError(MissingKey("year"))));
    }
    if birth.month.None? {
      return Err(Reraise(ValueError(MissingKey("month"))));
    }
    if birth.day.None? {
      return Err(Reraise(ValueError(MissingKey("day"))));
    }
    if birth.hour.None? {
      return Err(Reraise(ValueError(MissingKey("hour"))));
    }
    var year, month, hour := birth.year.value, birth.month.value, birth.hour.value;

    // the year pair and its bureau, whose label always holds a numeral
    var yp := YearGanZhi(year);
    var ygz, bureau := yp.gz, yp.bureau;
    YearBureauNumber(year);
    var bureauNumber := InlineBureauNumber(bureau).value;
    LabelNumbers(bureau);

    // the month, day and hour pairs
    CycleIndices((year - 1864) % 60);
    var mgz := MonthGanZhi(ygz, month).value;
    var monthZhi := [mgz[1]];
    if days.None? {
      return Err(Reraise(ValueError(BadDate)));
    }
    var dgz := DayGanZhi(days.value);
    var hourZhi := HourBranchOf(hour);
    var hgz := HourGanZhi(dgz, hourZhi);
    if hgz.Err? {
      return Err(Reraise(hgz.error));
    }
    // the hour the lunar calendar library is given
    var hourInt := ParseHour(hour).value;

    // the lunar date, then the life and body palaces
    if lunar.Err? {
      return Err(Reraise(lunar.error));
    }
    var (lunarMonth, lunarDay) := lunar.value;
    var palaces := CalcLifeBodyPalace(lunarMonth, hourZhi);
    if palaces.Err? {
      return Err(Reraise(palaces.error));
    }
    var (lifePalace, bodyPalace) := palaces.value;

    var gender := if birth.gender.Some? then birth.gender.value else "male";
    var yinYang := YinYangLabel(ygz[0], gender);

    var majorPos, auxPos, trans, patterns, analysis := ArrangeChart(ygz, monthZhi, hourZhi, lunarDay, bureauNumber);
    return Ok(Chart(ygz, mgz, dgz, hgz.value, bureau, lifePalace.Value(), bodyPalace.Value(),
                    majorPos, auxPos, trans, patterns, analysis));
  }

  /** The star steps of calculate: the major stars (arrange_major_stars is
      called without yin_yang, so always forward), the auxiliary stars, the
      four transformations with the year stem as palace stem, the patterns
      and the element balance. None of them can fail here. */
  method ArrangeChart(ygz: string, monthZhi: string, hourZhi: string, lunarDay: int, bureauNumber: int)
    returns (majorPos: map<Star, int>, auxPos: map<Star, Placement>, trans: map<Key, Star>,
             patterns: seq<PatternEntry>, analysis: Analysis)
    requires |ygz| > 0 && ygz[0] in TianGan
    requires |monthZhi| == 1 && monthZhi[0] in DiZhi && IsBranch(hourZhi)
    requires bureauNumber != 0
    ensures IsStarsOf(majorPos, auxPos, trans, patterns, analysis, ygz, monthZhi, hourZhi,
                      ZiWeiPosition(lunarDay, bureauNumber))
  {
    var majorResult := ArrangeMajorStars(lunarDay, bureauNumber, "阳男");
    assert majorResult.Ok?;
    majorPos := majorResult.value;
    MonthBranchIsMonth(monthZhi[0]);
    auxPos := ArrangeAuxStars(ygz, monthZhi, hourZhi).value;

    var transResult := Calc(ygz, [ygz[0]]);
    assert transResult.Ok?;
    trans := transResult.value;
    patterns := Identify(majorPos);

    FullPlacement(majorPos, ZiWeiPosition(lunarDay, bureauNumber));
    FullAnalysis(majorPos);
    var analysisResult := AnalyzeWuxing(majorPos);
    analysis := analysisResult.value;
  }

  /** A branch is a month branch, so the 天马 rule accepts it. */
  lemma MonthBranchIsMonth(c: char)
    requires c in DiZhi
    ensures c in MonthZhiMap
  {
  }

  /** A major layout holds all fourteen major stars. */
  lemma FullPlacement(m: map<Star, int>, ziPos: int)
    requires IsMajorLayout(m, ziPos, 1)
    ensures forall s: Star :: s.IsMajor() ==> s in m
  {
  }

  /** 紫微 sits on the sector it is placed from. */
  lemma ZiWeiSector(m: map<Star, int>, ziPos: int)
    requires 0 <= ziPos < 12 && IsMajorLayout(m, ziPos, 1)
    ensures ZiWei in m && m[ZiWei] == ziPos
  {
    assert ZiWei.IsMajor() && ZiWei.MajorIndex() == 0;
  }

  // ------------------------------------------------------------- lemmas

  /** Only ValueErrors come out of the stages; a RuntimeError is only ever
      an exception of the lunar calendar library that is not a ValueError. */
  lemma OnlyLunarRuntimeError(birth: Birth, days: Option<int>, lunar: Result<(int, int)>)
    requires PipelineFailure(birth, days, lunar).Some?
    ensures Reraise(PipelineFailure(birth, days, lunar).value).RuntimeError? <==>
      && birth.year.Some? && birth.month.Some? && birth.day.Some? && birth.hour.Some? && days.Some?
      && (birth.hour.value.TextHour? ==> IsBranch(birth.hour.value.s))
      && lunar.Err? && !lunar.error.ValueError?
  {
  }

  /** The gender never decides whether calculate fails: it only feeds the
      阴阳 label (YinYangLabel), which calculate builds and does not use,
      so two records that differ only in the gender fail alike. */
  lemma GenderIgnored(birth: Birth, g: Option<string>, days: Option<int>, lunar: Result<(int, int)>)
    ensures PipelineFailure(birth, days, lunar) == PipelineFailure(birth.(gender := g), days, lunar)
  {
  }

  /** Every chart has 紫府朝垣 as its first pattern. */
  lemma {:induction false} ChartPatterns(c: Chart, year: int, month: int, days: int, hour: HourInput,
                                         lunarMonth: int, lunarDay: int)
    requires IsChartOf(c, year, month, days, hour, lunarMonth, lunarDay)
    ensures |c.patterns| >= 1 && c.patterns[0] == EntryOf(ZiWeiTianFu) && c.patterns[0].name == "紫府朝垣"
  {
    var yp := YearGanZhi(year);
    ZiFuHeads(c.majorPos, ZiWeiPosition(lunarDay, ElementNumber(yp.bureau[0])), 1);
  }

  /** Every chart has the same element balance: 金 2, 木 1.5, 水 5, 火 1.5,
      土 4; 水 strongest, 木 weakest, 金 木 火 deficient. */
  lemma {:induction false} ChartBalance(c: Chart, year: int, month: int, days: int, hour: HourInput,
                                        lunarMonth: int, lunarDay: int)
    requires IsChartOf(c, year, month, days, hour, lunarMonth, lunarDay)
    ensures c.wuxingAnalysis.count == Counts(2.0, 1.5, 5.0, 1.5, 4.0)
    ensures c.wuxingAnalysis.strongest == "水" && c.wuxingAnalysis.weakest == "木"
    ensures c.wuxingAnalysis.deficiency == ["金", "木", "火"]
  {
    var yp := YearGanZhi(year);
    FullPlacement(c.majorPos, ZiWeiPosition(lunarDay, ElementNumber(yp.bureau[0])));
    FullTally(c.majorPos);
    FullAnalysis(c.majorPos);
  }

  /** Every chart has all six transformation keys, and its self
      transformations repeat the year's 禄 and 忌. */
  lemma {:induction false} ChartTransforms(c: Chart, year: int, month: int, days: int, hour: HourInput,
                                           lunarMonth: int, lunarDay: int)
    requires IsChartOf(c, year, month, days, hour, lunarMonth, lunarDay)
    ensures c.fourTrans.Keys == {YearKey(Lu), YearKey(Quan), YearKey(Ke), YearKey(Ji), SelfKey(Lu), SelfKey(Ji)}
    ensures c.fourTrans[SelfKey(Lu)] == c.fourTrans[YearKey(Lu)]
    ensures c.fourTrans[SelfKey(Ji)] == c.fourTrans[YearKey(Ji)]
  {
    var stem := YearGanZhi(year).gz[0];
    CycleIndices((year - 1864) % 60);
    TableKeys(stem);
    TransformKeys(c.fourTrans, stem, stem);
    SelfMatchesYear(c.fourTrans, stem);
  }

  /** In every chart the hour pair ends with the hour branch. */
  lemma {:induction false} ChartHour(c: Chart, year: int, month: int, days: int, hour: HourInput,
                                     lunarMonth: int, lunarDay: int)
    requires IsChartOf(c, year, month, days, hour, lunarMonth, lunarDay)
    ensures IsBranch(HourBranchOf(hour))
    ensures |c.hourGanzhi| == 2 && c.hourGanzhi[1] == HourBranchOf(hour)[0]
  {
    var z := HourBranchOf(hour);
    assert HourGanZhi(c.dayGanzhi, z).Ok?;
  }

  /** In every chart the month pair ends with the month's branch counted
      from 寅 (month 1). */
  lemma {:induction false} ChartMonth(c: Chart, year: int, month: int, days: int, hour: HourInput,
                                      lunarMonth: int, lunarDay: int)
    requires IsChartOf(c, year, month, days, hour, lunarMonth, lunarDay)
    ensures |c.monthGanzhi| == 2 && c.monthGanzhi[1] == DiZhi[(month + 1) % 12]
  {
    CycleIndices((year - 1864) % 60);
  }

  /** In every chart the bureau is a label such as 水二局 whose number is
      2..6, and 紫微 sits in the sector that number and the lunar day give. */
  lemma {:induction false} ChartBureau(c: Chart, year: int, month: int, days: int, hour: HourInput,
                                       lunarMonth: int, lunarDay: int)
    requires IsChartOf(c, year, month, days, hour, lunarMonth, lunarDay)
    ensures IsBureauLabel(c.wuxingBureau)
    ensures InlineBureauNumber(c.wuxingBureau) == Ok(ElementNumber(c.wuxingBureau[0]))
    ensures ZiWei in c.majorPos && c.majorPos[ZiWei] == ZiWeiPosition(lunarDay, ElementNumber(c.wuxingBureau[0]))
  {
    YearBureauNumber(year);
    var b := c.wuxingBureau;
    assert b == YearGanZhi(year).bureau;
    LabelNumbers(b);
    var p := ZiWeiPosition(lunarDay, ElementNumber(b[0]));
    assert IsMajorLayout(c.majorPos, p, 1);
    ZiWeiSector(c.majorPos, p);
  }
}
