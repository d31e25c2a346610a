# Zi Wei Dou Shu chart engine — a Dafny model

This project models the chart engine of `ziwei/algorithm` and proves properties of it. The engine computes a Zi Wei Dou Shu (紫微斗数, Zhongzhou school) natal chart from a birth record. Alongside the chart it runs two small analyses, date numerology and a jewellery recommender. Each of the modules below covers one source file.

- `GanZhi` (ganzhi.dfy) covers the stem-branch calendar (干支). It models:
  - the year, month, day and hour pairs;
  - the 60-entry Na Yin (纳音) table;
  - the Na Yin → five-element bureau (五行局) table.

  A date is a count of days since 1899-12-22.
- `Palaces` (palace.py) covers:
  - the twelve-palace ring;
  - the duplicate year-pair helper;
  - the hour → branch normaliser;
  - the life and body palace (命宫/身宫) formula.
- `Stars` (star_system.py) covers:
  - the 14 major stars and their two chains anchored at the 紫微 sector;
  - the 14 auxiliary stars from their tables and "+6" partners;
  - the 天马 fallback;
  - the merged 28-star layout;
  - the file's own, divergent hour and month helpers.
- `FourTransforms` (four_transform.py) covers the year four transformations (四化) and the palace self-transformations (自化), with the two error conditions.
- `SixtyPatterns` (sixty_pattern.py) covers the 19 pattern rules as a datatype with one evaluator, and `identify` as a loop over them in declaration order.
- `WuxingBalance` models `analyze_wuxing`, `TimeConversion` models the hour parsers and the bureau-number extraction, and `ZhongZhou` models the `calculate` pipeline (zhongzhou_calculator.py).
- `Numerology` (numerology.py) covers the life number (a digital root of the date string) and the two-digit window scan against the four digital fields.
- `Recommendation` (jewelry_recommendation.py) covers the engine, a class holding the database and the fees. It models:
  - the year, month/day and fengshui recommenders;
  - `_dedupe_sort`;
  - `get_fee`;
  - `recommend`.

Shared support:
- `Outcomes` holds `Option`, `Result` and the exception kinds:
  - `ValueError`, carrying its cause;
  - `IndexError`;
  - `ZeroDivisionError`;
  - `RuntimeError`, wrapping the original exception.
- `Modular` holds small residue lemmas.

The source mutates state in several places, and the model keeps those loops as methods proved against specification functions:
- `arrange_major_stars` fills a dict in two loops;
- `FourTransform.calc` fills a dict by key assignment;
- `identify` and `analyze_patterns` append in loops;
- `analyze_wuxing` accumulates counts;
- `extract_bureau_number` scans with early returns;
- `calculate_life_number` re-sums in a `while` loop;
- `_dedupe_sort` and `recommend_by_month_day` grow lists.

Where the code and its design description disagree, the model follows the code:
- `calculate` places the major stars with the fixed direction of 阳男, whatever the gender and year stem. The 阴阳 label it builds is unused.
- The 天马 fallback stores the palace *name*, not a sector number.
- The auxiliary tables read an unknown year stem as 0 and do not raise.
- The two-star pattern rules compare raw sector numbers, not distances around the ring.
- star_system.py's own hour helper lags palace.py's by two hours (hour 0 gives 亥, not 子).

## Model

| member | source | states |
|---|---|---|
| GanZhi.StemIndex | ziwei/algorithm/ganzhi_converter.py:54 | `TIAN_GAN.index`: the position of a stem in 甲…癸 |
| GanZhi.BranchIndex | ziwei/algorithm/ganzhi_converter.py:73 | `DI_ZHI.index`: the position of a branch in 子…亥 |
| GanZhi.CycleIndices | ziwei/algorithm/ganzhi_converter.py:44-46 | the pair at cycle position p has stem p mod 10 and branch p mod 12 |
| GanZhi.NaYinDefined | ziwei/algorithm/ganzhi_converter.py:9-25 | every stem/branch pair of equal parity is a key of NAYIN |
| GanZhi.NaYinUndefined | ziwei/algorithm/ganzhi_converter.py:9-25 | no pair of unequal parity is a key of NAYIN |
| GanZhi.NaYinKeyParity | ziwei/algorithm/ganzhi_converter.py:9-25 | a pair is a NAYIN key if and only if its stem and branch indices have equal parity |
| GanZhi.NaYinKeyChars | ziwei/algorithm/ganzhi_converter.py:9-25 | every NAYIN key is a stem followed by a branch |
| GanZhi.NaYinKeyIsCycle | ziwei/algorithm/ganzhi_converter.py:9-25 | every NAYIN key is one of the 60 cycle pairs |
| GanZhi.NaYinHasBureau | ziwei/algorithm/ganzhi_converter.py:9-37 | every Na Yin name is a key of WUXING_BUREAU |
| GanZhi.BureauElement | ziwei/algorithm/ganzhi_converter.py:28-37 | every bureau label is an element, a numeral and 局 |
| GanZhi.NaYinKeyShape | ziwei/algorithm/ganzhi_converter.py:9-25 | every Na Yin name has three characters, the last an element |
| GanZhi.CycleInTables | ziwei/algorithm/ganzhi_converter.py:9-37 | every cycle pair has a Na Yin and a bureau, and the bureau starts with the element the Na Yin ends with |
| GanZhi.PairsShareNaYin | ziwei/algorithm/ganzhi_converter.py:9-25 | the cycle pairs 2k and 2k+1 share one Na Yin |
| GanZhi.NaYinPairRows | ziwei/algorithm/ganzhi_converter.py:9-25 | the same, stated on stem and branch indices |
| GanZhi.YearGanZhi | ziwei/algorithm/ganzhi_converter.py:40-49 | the year pair is cycle position (y−1864) mod 60, a NAYIN key, and its bureau is looked up without the 土/土五局 defaults |
| GanZhi.YearPosition | ziwei/algorithm/ganzhi_converter.py:42-46 | the cycle position has stem ((y−1900)%10+6)%10 and branch (y−1900)%12 |
| GanZhi.YearPeriodic | ziwei/algorithm/ganzhi_converter.py:42-45 | the year pair and bureau repeat every 60 years, below 1900 as well |
| GanZhi.Year1900 | ziwei/algorithm/ganzhi_converter.py:42-48 | 1900 is 庚子 with bureau 土五局 |
| GanZhi.MonthGanZhi | ziwei/algorithm/ganzhi_converter.py:52-58 | an empty year pair is an IndexError and a non-stem first character a ValueError; otherwise the stem is (index+month+1)%10 and the branch (month+1)%12 |
| GanZhi.MonthBranchEnds | ziwei/algorithm/ganzhi_converter.py:57 | month 1 is a 寅 month and month 12 a 丑 month |
| GanZhi.MonthFirstExamples | ziwei/algorithm/ganzhi_converter.py:52-58 | the first month of a 甲 year is 丙寅 and of an 乙 year 丁寅 |
| GanZhi.MonthPeriodic | ziwei/algorithm/ganzhi_converter.py:52-58 | the month branch repeats every 12 months and the pair every 60 |
| GanZhi.MonthUsesYearStemOnly | ziwei/algorithm/ganzhi_converter.py:54-56 | only the first character of the year pair matters |
| GanZhi.MonthPairInCycle | ziwei/algorithm/ganzhi_converter.py:52-58 | the month pair is a NAYIN key if and only if the year stem has an even index |
| GanZhi.DayGanZhi | ziwei/algorithm/ganzhi_converter.py:61-67 | the day pair is cycle position days mod 60, which is always a NAYIN key |
| GanZhi.DayEpoch | ziwei/algorithm/ganzhi_converter.py:63-67 | 1899-12-22 is 甲子 |
| GanZhi.DayPeriodic | ziwei/algorithm/ganzhi_converter.py:63-67 | the day pair repeats every 60 days |
| GanZhi.DayStep | ziwei/algorithm/ganzhi_converter.py:63-67 | the next day is the next cycle position, so stem and branch both advance by one |
| GanZhi.DayStemBase | ziwei/algorithm/ganzhi_converter.py:74-76 | the TG_BASE of a day stem, 1 for an unknown one, is always odd |
| GanZhi.HourGanZhi | ziwei/algorithm/ganzhi_converter.py:70-78 | a non-branch hour is a ValueError, an empty day pair an IndexError; otherwise the branch is the hour branch and the stem is TIAN_GAN[(base+index)%10] |
| GanZhi.HourSharedBase | ziwei/algorithm/ganzhi_converter.py:74-77 | day stems with the same TG_BASE give the same hour pair |
| GanZhi.TgBaseKeys | ziwei/algorithm/ganzhi_converter.py:74-75 | only stems have a TG_BASE entry |
| GanZhi.HourUnknownStem | ziwei/algorithm/ganzhi_converter.py:76 | an unknown day stem falls back to the base of 甲 |
| GanZhi.HourPairNotInCycle | ziwei/algorithm/ganzhi_converter.py:72-78 | the hour pair never has equal parity, so it never is a NAYIN key |
| Palaces.Palace.Index | ziwei/algorithm/palace.py:7-20 | the position of a palace in declaration order |
| Palaces.RingIndex | ziwei/algorithm/palace.py:7-20 | the ring lists each palace once, at its index |
| Palaces.GetGanZhi | ziwei/algorithm/palace.py:29-34 | the duplicate helper, counting from the year 4, equals the converter's year pair for every year |
| Palaces.GetHourZhi | ziwei/algorithm/palace.py:37-50 | an int hour gives a branch; a string gives itself when it is a branch and a ValueError otherwise |
| Palaces.HourWindows | ziwei/algorithm/palace.py:43-45 | hours 2k and 2k−1 (23 for 子) both give branch k |
| Palaces.HourPeriodic | ziwei/algorithm/palace.py:43-45 | the hour branch repeats every 24 hours |
| Palaces.HourIdempotent | ziwei/algorithm/palace.py:46-50 | normalising a normalised hour changes nothing |
| Palaces.CalcLifeBodyPalace | ziwei/algorithm/palace.py:57-78 | month outside 1..12 or a non-branch hour is a ValueError; otherwise life is ring[(month+1−h) mod 12] and body ring[(2+h) mod 12] |
| Palaces.LifeIndex | ziwei/algorithm/palace.py:69-72 | the source's two-step life index equals (month+1−h) mod 12 |
| Palaces.BodyIgnoresMonth | ziwei/algorithm/palace.py:74-75 | the body palace does not depend on the month |
| Palaces.LifeBodySum | ziwei/algorithm/palace.py:69-75 | life index + body index ≡ month+3 (mod 12) |
| Palaces.LifeBodyExample | ziwei/algorithm/palace.py:155 | month 5 and 卯 give 子女 and 疾厄 |
| Stars.Star.Name | ziwei/algorithm/star_system.py:8-11 | every star name has two characters |
| Stars.Star.Elements | ziwei/algorithm/star_system.py:14-21 | every star has one or two of the five elements |
| Stars.Star.MajorIndex | ziwei/algorithm/star_system.py:8-9 | a major star's position in MAJOR |
| Stars.MajorAt | ziwei/algorithm/star_system.py:8-9 | MAJOR lists a major star at its index |
| Stars.MajorListed | ziwei/algorithm/star_system.py:8-9 | a star is in MAJOR if and only if it is major |
| Stars.AuxListed | ziwei/algorithm/star_system.py:10-11 | a star is in AUX if and only if it is not major |
| Stars.AuxKeysListed | ziwei/algorithm/star_system.py:229-246 | the keys of the auxiliary dict are exactly the non-major stars |
| Stars.StarNamed | ziwei/algorithm/star_system.py:8-21 | a found star carries the name it is looked up by |
| Stars.NameRoundTrip | ziwei/algorithm/star_system.py:8-21 | looking up a star's name finds that star |
| Stars.MajorNameRoundTrip | ziwei/algorithm/star_system.py:8-9 | the same, through the two-character lookup, for major stars |
| Stars.AuxNameRoundTrip | ziwei/algorithm/star_system.py:10-11 | the same for auxiliary stars |
| Stars.StarNamedPair | ziwei/algorithm/star_system.py:8-21 | a found star's name is the two given characters |
| Stars.TianNamed | ziwei/algorithm/star_system.py:8-21 | a found star's name is 天 and the given character |
| Stars.MajorLeadNamed | ziwei/algorithm/star_system.py:8-9 | a found star's name is the two given characters |
| Stars.AuxLeadNamed | ziwei/algorithm/star_system.py:10-11 | a found star's name is the two given characters |
| Stars.MaleficNamed | ziwei/algorithm/star_system.py:10-11 | a found star's name is the two given characters |
| Stars.IsMajorStar | ziwei/algorithm/star_system.py:29-31 | true if and only if the name is in MAJOR |
| Stars.IsAuxStar | ziwei/algorithm/star_system.py:34-36 | true if and only if the name is in AUX |
| Stars.NamesOfListed | ziwei/algorithm/star_system.py:8-11 | a name of a listed star looks up that star |
| Stars.GetStarWuxing | ziwei/algorithm/star_system.py:24-26 | the element list of a named star, empty exactly for unknown names |
| Stars.ChainRanks | ziwei/algorithm/star_system.py:89-97 | the two chains are MAJOR[0..6] and MAJOR[6..14], in order |
| Stars.MajorSector | ziwei/algorithm/star_system.py:89-97 | every major star's sector is in 0..11 |
| Stars.ZiWeiPosition | ziwei/algorithm/star_system.py:80 | the 紫微 sector (bureau·((day−1) mod bureau)) mod 12, with Python's floored mod, lies in 0..11 |
| Stars.Direction | ziwei/algorithm/star_system.py:87 | +1 if and only if yin_yang is 阳男 or 阴女, −1 otherwise |
| Stars.ArrangeMajorStars | ziwei/algorithm/star_system.py:67-99 | bureau 0 is a ZeroDivisionError; otherwise exactly the 14 major stars, each at its chain sector |
| Stars.ZiWeiStep | ziwei/algorithm/star_system.py:89-91 | one step of the first loop places the next 紫微-chain star |
| Stars.TianFuStep | ziwei/algorithm/star_system.py:93-97 | one step of the second loop places the next 天府-chain star |
| Stars.PlacedAll | ziwei/algorithm/star_system.py:89-99 | after both loops the dict is the whole major layout |
| Stars.PlaceNext | ziwei/algorithm/star_system.py:89-97 | placing the next major star extends a partial layout |
| Stars.MajorRank | ziwei/algorithm/star_system.py:8-9 | MAJOR[n] has rank n |
| Stars.ChainsAreMajor | ziwei/algorithm/star_system.py:89-97 | the chains list MAJOR in order |
| Stars.ChainOffsets | ziwei/algorithm/star_system.py:89-97 | chain-1 star i sits at anchor + d·i, chain-2 star i at anchor + 6 − d·i |
| Stars.TianFuOpposite | ziwei/algorithm/star_system.py:93 | 天府 is always opposite 紫微 (+6 mod 12) |
| Stars.StepsDiffer | ziwei/algorithm/star_system.py:89-97 | fewer than 12 unit steps never land on the same sector |
| Stars.ChainsDistinct | ziwei/algorithm/star_system.py:89-97 | the sectors within each chain are pairwise distinct |
| Stars.DirectionMirrors | ziwei/algorithm/star_system.py:87-97 | flipping the direction mirrors every star about its chain anchor |
| Stars.LuCunOf | ziwei/algorithm/star_system.py:118-130 | the 禄存 table gives a sector in 0..11 (0 for an unknown stem) |
| Stars.WenChangOf | ziwei/algorithm/star_system.py:145-158 | the 文昌 table gives a sector in 0..11 |
| Stars.ZuoFuOf | ziwei/algorithm/star_system.py:161-174 | the 左辅 table gives a sector in 0..11 |
| Stars.QingYangOf | ziwei/algorithm/star_system.py:177-190 | the 擎羊 table gives a sector in 0..11 |
| Stars.HuoLingOf | ziwei/algorithm/star_system.py:193-206 | the 火星 table gives a sector in 0..11 |
| Stars.TianKuiOf | ziwei/algorithm/star_system.py:213-226 | the 天魁 table gives a sector in 0..11 |
| Stars.WenChangIsQingYang | ziwei/algorithm/star_system.py:145-190 | the 文昌 and 擎羊 tables are identical |
| Stars.UnknownStemReadsZero | ziwei/algorithm/star_system.py:118-226 | an unknown year stem reads 0 from every table |
| Stars.MonthZhiIndex | ziwei/algorithm/star_system.py:133-142 | `month_zhi_map.index`: the position of a branch in 寅…丑 |
| Stars.MonthZhiMapShift | ziwei/algorithm/star_system.py:5 | month_zhi_map is DI_ZHI rotated by two |
| Stars.TianMaOf | ziwei/algorithm/star_system.py:133-142 | 寅申巳亥 give 6, 0, 9, 3; another branch gives the name of the life palace of month index+1; a non-branch is a ValueError |
| Stars.ArrangeAuxStars | ziwei/algorithm/star_system.py:102-246 | an empty year pair is an IndexError and a 天马 error is passed on; otherwise exactly the 14 auxiliary stars, each partner at its star + 6, 地空 at 9 and 地劫 at 3 |
| Stars.AuxDict | ziwei/algorithm/star_system.py:229-246 | the dict has the 14 auxiliary keys and sets each "+6" partner |
| Stars.Merge | ziwei/algorithm/star_system.py:264-272 | the merged dict has both key sets, auxiliary values winning |
| Stars.ArrangeAllStars | ziwei/algorithm/star_system.py:249-272 | errors of either arranger are passed on; otherwise the 28-star layout |
| Stars.MergedLayout | ziwei/algorithm/star_system.py:264-272 | merging a major and an auxiliary layout keeps both |
| Stars.LocalHourZhi | ziwei/algorithm/star_system.py:53-57 | the local hour helper always gives a branch |
| Stars.LocalHourLags | ziwei/algorithm/star_system.py:53-57 | it is palace.py's mapping shifted by two hours, so hour 0 gives 亥 there and 子 in palace.py |
| Stars.LocalMonthZhi | ziwei/algorithm/star_system.py:60-64 | the local month helper always gives a branch |
| Stars.LocalMonthLags | ziwei/algorithm/star_system.py:60-64 | month 1 gives 子, and month m+2 gives the converter's branch of month m |
| FourTransforms.Kind.Index | ziwei/algorithm/four_transform.py:53-58 | 禄 权 科 忌 are positions 0..3 |
| FourTransforms.YearStars | ziwei/algorithm/four_transform.py:6-17 | each YEAR row has four stars |
| FourTransforms.PalaceStars | ziwei/algorithm/four_transform.py:20-31 | each PALACE row has two stars |
| FourTransforms.TableKeys | ziwei/algorithm/four_transform.py:6-31 | both tables are keyed by exactly the ten stems |
| FourTransforms.PalaceIsYearEnds | ziwei/algorithm/four_transform.py:6-31 | PALACE[s] is (YEAR[s][0], YEAR[s][3]) for every stem |
| FourTransforms.Calc | ziwei/algorithm/four_transform.py:34-68 | an empty year pair or a non-stem palace stem is a ValueError; otherwise the 年干 keys from YEAR (when the stem is in it) and the two 自化 keys from PALACE |
| FourTransforms.TransformKeys | ziwei/algorithm/four_transform.py:56-66 | six keys for a tabled year stem, only the two 自化 keys otherwise |
| FourTransforms.SelfMatchesYear | ziwei/algorithm/four_transform.py:6-31 | with the year stem as palace stem, 自化禄 = 年干禄 and 自化忌 = 年干忌 |
| FourTransforms.GetValidYearGans | ziwei/algorithm/four_transform.py:71-73 | the ten stems in table order, exactly the YEAR keys |
| FourTransforms.GetValidPalaceGans | ziwei/algorithm/four_transform.py:76-78 | the same list, exactly the PALACE keys |
| FourTransforms.StemsListed | ziwei/algorithm/four_transform.py:71-78 | membership in that list is being a stem |
| SixtyPatterns.Abs | ziwei/algorithm/sixty_pattern.py:32-159 | `abs` of a raw difference |
| SixtyPatterns.Positions | ziwei/algorithm/sixty_pattern.py:185-188 | the positions of the rule's stars, in rule order |
| SixtyPatterns.Identify | ziwei/algorithm/sixty_pattern.py:166-200 | the loop returns the entries of the firing rules in RULES order |
| SixtyPatterns.MatchesStep | ziwei/algorithm/sixty_pattern.py:178-198 | one loop step appends the rule's entry exactly when it fires |
| SixtyPatterns.FiredCount | ziwei/algorithm/sixty_pattern.py:178-198 | one entry per firing rule, at most one per rule |
| SixtyPatterns.FiredSound | ziwei/algorithm/sixty_pattern.py:179-190 | every reported rule fires |
| SixtyPatterns.FiredComplete | ziwei/algorithm/sixty_pattern.py:179-190 | every firing rule is reported |
| SixtyPatterns.FiredAscending | ziwei/algorithm/sixty_pattern.py:178-198 | entries follow declaration order |
| SixtyPatterns.MatchesAtFired | ziwei/algorithm/sixty_pattern.py:192-197 | each entry is its rule's static name, wuxing, score and description |
| SixtyPatterns.AtMostOnePerRule | ziwei/algorithm/sixty_pattern.py:29-163 | at most 19 entries |
| SixtyPatterns.RuleShape | ziwei/algorithm/sixty_pattern.py:29-163 | every rule needs at least two stars and scores in (0, 1] |
| SixtyPatterns.EmptyPlacementMatchesNothing | ziwei/algorithm/sixty_pattern.py:179-185 | with no stars placed nothing fires |
| SixtyPatterns.RawDifference | ziwei/algorithm/sixty_pattern.py:32-159 | the difference is on raw sectors: 11 and 0 are 11 apart |
| SixtyPatterns.JiYueTongLiangRule | ziwei/algorithm/sixty_pattern.py:37-43 | 机月同梁 fires if and only if all four stars are placed on multiples of 3 |
| SixtyPatterns.FirstFiresHeads | ziwei/algorithm/sixty_pattern.py:178-198 | a firing first rule heads the result |
| SixtyPatterns.ZiFuAlwaysFires | ziwei/algorithm/sixty_pattern.py:30-36 | 紫府朝垣 fires for every major layout |
| SixtyPatterns.ZiFuHeads | ziwei/algorithm/sixty_pattern.py:178-198 | so it always heads the patterns of a chart |
| WuxingBalance.ElementIndex | ziwei/algorithm/zhongzhou_calculator.py:25 | the position of an element in 金木水火土 |
| WuxingBalance.Counts.Add | ziwei/algorithm/zhongzhou_calculator.py:29-30 | adding a weight to one element's count |
| WuxingBalance.Counts.Values | ziwei/algorithm/zhongzhou_calculator.py:33 | the counts in 金木水火土 order |
| WuxingBalance.Share | ziwei/algorithm/zhongzhou_calculator.py:28-30 | a single-element star adds 1, a dual-element star ½ to each |
| WuxingBalance.Ratios | ziwei/algorithm/zhongzhou_calculator.py:32-33 | each ratio is its count over the total |
| WuxingBalance.FirstMax | ziwei/algorithm/zhongzhou_calculator.py:34 | `max(ratio, key=ratio.get)`: the first maximum |
| WuxingBalance.FirstMin | ziwei/algorithm/zhongzhou_calculator.py:35 | `min(...)`: the first minimum |
| WuxingBalance.Below | ziwei/algorithm/zhongzhou_calculator.py:36 | exactly the elements whose ratio is below 0.15, each once, in 金木水火土 order |
| WuxingBalance.Rank | ziwei/algorithm/zhongzhou_calculator.py:25 | the position of an element name in 金木水火土, 5 for anything else |
| WuxingBalance.Deficiency | ziwei/algorithm/zhongzhou_calculator.py:36 | ["无"] if and only if no ratio is below 0.15, otherwise the list of low elements |
| WuxingBalance.AnalysisOf | ziwei/algorithm/zhongzhou_calculator.py:32-44 | a zero total is a ZeroDivisionError; otherwise counts, ratios, strongest, weakest and deficiency |
| WuxingBalance.AnalyzeWuxing | ziwei/algorithm/zhongzhou_calculator.py:23-44 | the counting loop yields the analysis of the tally of the placed major stars |
| WuxingBalance.Present | ziwei/algorithm/zhongzhou_calculator.py:26-27 | the number of placed stars among the first n of MAJOR: between 0 and n, n exactly when all are placed, 0 exactly when none is |
| WuxingBalance.TotalAdd | ziwei/algorithm/zhongzhou_calculator.py:29-32 | adding w to one element adds w to the total |
| WuxingBalance.StarAddsOne | ziwei/algorithm/zhongzhou_calculator.py:28-30 | each placed star adds exactly 1 to the total |
| WuxingBalance.TallyTotal | ziwei/algorithm/zhongzhou_calculator.py:25-33 | the counts sum to the number of placed major stars |
| WuxingBalance.TallyKeys | ziwei/algorithm/zhongzhou_calculator.py:26-30 | the counts depend only on which major stars are placed |
| WuxingBalance.NoMajorNoAnalysis | ziwei/algorithm/zhongzhou_calculator.py:26-33 | division by zero exactly when no major star is placed |
| WuxingBalance.PresentZero | ziwei/algorithm/zhongzhou_calculator.py:26-32 | no star counted exactly when none is placed |
| WuxingBalance.RatiosSum | ziwei/algorithm/zhongzhou_calculator.py:33 | the ratios sum to 1 |
| WuxingBalance.FullTally | ziwei/algorithm/zhongzhou_calculator.py:25-33 | a full placement counts 金2 木1.5 水5 火1.5 土4 |
| WuxingBalance.FullRatiosAre | ziwei/algorithm/zhongzhou_calculator.py:32-33 | a full placement totals 14 and has ratios 1/7, 3/28, 5/14, 3/28, 2/7 |
| WuxingBalance.FullExtremes | ziwei/algorithm/zhongzhou_calculator.py:34-35 | for those ratios the first maximum is 水 and the first minimum 木 (tied with 火) |
| WuxingBalance.FullBelow | ziwei/algorithm/zhongzhou_calculator.py:36 | for those ratios the low elements are 金, 木, 火 |
| WuxingBalance.FullAnalysis | ziwei/algorithm/zhongzhou_calculator.py:32-44 | so strongest 水, weakest 木 and deficiency [金, 木, 火], whatever the sectors |
| TimeConversion.ParseHour | ziwei/algorithm/zhongzhou_calculator.py:11-19 | an int unchanged, a branch to twice its index, anything else a ValueError |
| TimeConversion.ParseHourRoundTrip | ziwei/algorithm/zhongzhou_calculator.py:11-19 | normalising the parsed hour gives back the hour's branch |
| TimeConversion.To24hFormat | ziwei/algorithm/zhongzhou_calculator.py:237-243 | accepts only ints 0..23 and branches (as parse_hour does), a ValueError otherwise |
| TimeConversion.HourZhiMap | ziwei/algorithm/zhongzhou_calculator.py:248-254 | the hour_zhi_map table is defined exactly on 0..23 |
| TimeConversion.HourZhiMapAgrees | ziwei/algorithm/zhongzhou_calculator.py:109-117 | the table agrees with DI_ZHI[((h+1)%24)//2] |
| TimeConversion.ToDiZhi | ziwei/algorithm/zhongzhou_calculator.py:246-254 | always a branch, the one palace.py gives for the hour |
| TimeConversion.DiZhiRoundTrip | ziwei/algorithm/zhongzhou_calculator.py:237-254 | to_di_zhi(to_24h_format(b)) is b for every branch |
| TimeConversion.Digits | ziwei/algorithm/zhongzhou_calculator.py:262 | the Arabic digits of a label, empty exactly when it has none |
| TimeConversion.DigitsValue | ziwei/algorithm/zhongzhou_calculator.py:264 | `int` of a digit string is non-negative |
| TimeConversion.Decimal | ziwei/algorithm/numerology.py:32 | `str` of a natural number is a non-empty digit string |
| TimeConversion.DecimalRoundTrip | ziwei/algorithm/numerology.py:32 | its value is the number |
| TimeConversion.NumeralOf | ziwei/algorithm/zhongzhou_calculator.py:258-259 | a CJK numeral's value lies in 1..10 |
| TimeConversion.FirstNumeral | ziwei/algorithm/zhongzhou_calculator.py:267-269 | the first CJK numeral, None exactly when there is none |
| TimeConversion.FirstNumeralAt | ziwei/algorithm/zhongzhou_calculator.py:267-269 | the scan stops at the first numeral |
| TimeConversion.InlineBureauNumber | ziwei/algorithm/zhongzhou_calculator.py:78-97 | empty is a ValueError; the digits, else the first numeral, else a ValueError |
| TimeConversion.DefaultFrom | ziwei/algorithm/zhongzhou_calculator.py:272-277 | the first element default found, a ValueError when none |
| TimeConversion.DefaultAt | ziwei/algorithm/zhongzhou_calculator.py:272-275 | the defaults are searched in 金木水火土 order |
| TimeConversion.ExtractSpec | ziwei/algorithm/zhongzhou_calculator.py:257-277 | the digits, else the first numeral, else the element default |
| TimeConversion.ExtractBureauNumber | ziwei/algorithm/zhongzhou_calculator.py:257-277 | the scanning method meets that specification |
| TimeConversion.ElementNumber | ziwei/algorithm/zhongzhou_calculator.py:272 | each element's bureau number lies in 2..6 |
| TimeConversion.BureauOfLabels | ziwei/algorithm/ganzhi_converter.py:28-37 | every WUXING_BUREAU value is a bureau label |
| TimeConversion.LabelNumbers | ziwei/algorithm/zhongzhou_calculator.py:257-277 | for the five labels both extractions give 4, 3, 2, 6, 5 (金 木 水 火 土) |
| TimeConversion.LabelShape | ziwei/algorithm/ganzhi_converter.py:28-37 | a label has no Arabic digit and its numeral comes first |
| TimeConversion.YearBureauNumber | ziwei/algorithm/zhongzhou_calculator.py:74-97 | every year's bureau number is found and lies in 2..6 |
| TimeConversion.InlineAgreesExtract | ziwei/algorithm/zhongzhou_calculator.py:257-277 | whenever the inline version succeeds, extract_bureau_number agrees |
| TimeConversion.ElementOnlyLabel | ziwei/algorithm/zhongzhou_calculator.py:272-275 | "金局" fails inline but extracts to 4 |
| ZhongZhou.Reraise | ziwei/algorithm/zhongzhou_calculator.py:170-173 | a ValueError stays a ValueError, everything else becomes a RuntimeError |
| ZhongZhou.HourBranchOf | ziwei/algorithm/zhongzhou_calculator.py:109-119 | an int hour via the map, always a branch; a string as given |
| ZhongZhou.YinYangLabel | ziwei/algorithm/zhongzhou_calculator.py:136-140 | 阳 exactly for the yang stems, 男 exactly for "male" |
| ZhongZhou.Calculate | ziwei/algorithm/zhongzhou_calculator.py:46-173 | the first failing stage, re-raised, or the chart built from every stage's value |
| ZhongZhou.ArrangeChart | ziwei/algorithm/zhongzhou_calculator.py:143-154 | stars (forward direction), transformations, patterns and balance of the chart |
| ZhongZhou.ZiWeiSector | ziwei/algorithm/star_system.py:80-91 | 紫微 sits at the 紫微 sector |
| ZhongZhou.OnlyLunarRuntimeError | ziwei/algorithm/zhongzhou_calculator.py:170-173 | a RuntimeError comes only from a non-ValueError of the lunar calendar |
| ZhongZhou.GenderIgnored | ziwei/algorithm/zhongzhou_calculator.py:136-143 | the gender never decides whether calculate fails; it only feeds the unused 阴阳 label |
| ZhongZhou.ChartPatterns | ziwei/algorithm/zhongzhou_calculator.py:151 | every chart's patterns start with 紫府朝垣 |
| ZhongZhou.ChartBalance | ziwei/algorithm/zhongzhou_calculator.py:154 | every chart counts 金2 木1.5 水5 火1.5 土4: strongest 水, weakest 木 and deficiency [金, 木, 火] |
| ZhongZhou.ChartTransforms | ziwei/algorithm/zhongzhou_calculator.py:148 | six transform keys, 自化禄 = 年干禄 and 自化忌 = 年干忌 |
| ZhongZhou.ChartHour | ziwei/algorithm/zhongzhou_calculator.py:109-122 | the hour pair ends with the hour branch |
| ZhongZhou.ChartMonth | ziwei/algorithm/zhongzhou_calculator.py:101-103 | the month pair ends with DI_ZHI[(month+1)%12] |
| ZhongZhou.ChartBureau | ziwei/algorithm/zhongzhou_calculator.py:74-97 | the bureau is a label, its number is its element's, and 紫微 sits at the sector of the lunar day and that number |
| Numerology.PyStr | ziwei/algorithm/numerology.py:32 | `str(year)`, with a minus sign for a negative year |
| Numerology.Pad2 | ziwei/algorithm/numerology.py:32 | `f"{n:02d}"` |
| Numerology.DateString | ziwei/algorithm/numerology.py:32 | the date string has at least five characters |
| Numerology.DigitValue | ziwei/algorithm/numerology.py:32-35 | `int(c)` of a digit lies in 0..9 |
| Numerology.DigitalRoot | ziwei/algorithm/numerology.py:33-36 | at most 9, and for a positive sum in 1..9 and congruent to it mod 9 |
| Numerology.CalculateLifeNumber | ziwei/algorithm/numerology.py:30-36 | a ValueError for a non-digit, otherwise the digital root of the digit sum, at most 9 |
| Numerology.LifeNumberOf | ziwei/algorithm/numerology.py:33-36 | the while loop computes the digital root of the first sum |
| Numerology.Resum | ziwei/algorithm/numerology.py:34-35 | re-summing the digits shrinks the sum and keeps its digital root |
| Numerology.DecimalDigitSum | ziwei/algorithm/numerology.py:34-35 | a number's digit sum is congruent to it mod 9 and smaller from 10 on |
| Numerology.RootOfRemainder | ziwei/algorithm/numerology.py:34-36 | the digital root depends only on the residue mod 9 and on being zero |
| Numerology.DigitSumConcat | ziwei/algorithm/numerology.py:32-33 | the digit sum of a concatenation is the sum of the digit sums |
| Numerology.LifeNumberRange | ziwei/algorithm/numerology.py:30-36 | for a positive year the life number lies in 1..9 |
| Numerology.PadDigits | ziwei/algorithm/numerology.py:32 | a padded non-negative number is all digits |
| Numerology.NegativeYearRejected | ziwei/algorithm/numerology.py:32-33 | a negative year's string holds '-', which `int` rejects |
| Numerology.LifeNumberExample | ziwei/algorithm/numerology.py:30-36 | 1990-07-07 gives "19900707", sum 33 and life number 6 |
| Numerology.DateExample | ziwei/algorithm/numerology.py:32 | 1990-07-07 gives "19900707" |
| Numerology.DigitSumExample | ziwei/algorithm/numerology.py:32-33 | "19900707" sums to 33 |
| Numerology.Window | ziwei/algorithm/numerology.py:43-44 | each window has two characters |
| Numerology.WindowEntriesFields | ziwei/algorithm/numerology.py:45-52 | the entries of a window come from the fields in table order |
| Numerology.AnalyzePatterns | ziwei/algorithm/numerology.py:39-53 | the loops return the left-to-right scan of the date string |
| Numerology.PatternsOf | ziwei/algorithm/numerology.py:41-52 | the same for any string |
| Numerology.FieldOf | ziwei/algorithm/numerology.py:6-27 | the field a two-digit combo belongs to |
| Numerology.FieldsDisjoint | ziwei/algorithm/numerology.py:6-27 | the four combo sets are pairwise disjoint |
| Numerology.CombosReversible | ziwei/algorithm/numerology.py:8-23 | each combo set is closed under reversal |
| Numerology.CombosAvoid | ziwei/algorithm/numerology.py:8-23 | no combo has a 0, a 5 or a repeated digit |
| Numerology.WindowAtMostOne | ziwei/algorithm/numerology.py:44-52 | each window yields at most one entry, exactly when it is a combo |
| Numerology.ScanBound | ziwei/algorithm/numerology.py:41-52 | at most len−1 entries |
| Numerology.ScanEntries | ziwei/algorithm/numerology.py:46-52 | each entry's combo is one of the windows, and its texts are its field's |
| Numerology.WindowEntryShape | ziwei/algorithm/numerology.py:46-52 | a window's entry is exactly its field's table row |
| Numerology.ScanPrefix | ziwei/algorithm/numerology.py:41-52 | the output is in window order: a shorter scan is a prefix |
| Numerology.PatternsExample | ziwei/algorithm/numerology.py:39-53 | "19900707" yields exactly 19 → 延年 (金) |
| Numerology.ScanSkip | ziwei/algorithm/numerology.py:44-52 | a window with a 0 or a repeated digit adds nothing |
| Numerology.NoFieldWindow | ziwei/algorithm/numerology.py:44-52 | such a window matches no field |
| Recommendation.Select | ziwei/algorithm/jewelry_recommendation.py:30-34 | a list comprehension over the database never grows it |
| Recommendation.Filter | ziwei/algorithm/jewelry_recommendation.py:30-34 | a filter never grows its list |
| Recommendation.FilterCons | ziwei/algorithm/jewelry_recommendation.py:30-34 | filtering x::s is x's part then the filtered tail |
| Recommendation.FilterMembers | ziwei/algorithm/jewelry_recommendation.py:30-34 | a filter keeps exactly the passing members |
| Recommendation.FilterConcat | ziwei/algorithm/jewelry_recommendation.py:49-70 | filtering distributes over concatenation |
| Recommendation.SelectMembers | ziwei/algorithm/jewelry_recommendation.py:30-34 | a selection is exactly the matching database items |
| Recommendation.SelectConcat | ziwei/algorithm/jewelry_recommendation.py:49-70 | selecting distributes over concatenation |
| Recommendation.Firsts | ziwei/algorithm/jewelry_recommendation.py:97-105 | the first-occurrence pass never grows its list |
| Recommendation.FirstsShape | ziwei/algorithm/jewelry_recommendation.py:97-105 | it keeps every id, no id twice and only first occurrences |
| Recommendation.FirstsComplete | ziwei/algorithm/jewelry_recommendation.py:100-105 | every first occurrence is kept |
| Recommendation.TierRank | ziwei/algorithm/jewelry_recommendation.py:108-112 | high 0, mid 1, low 2, anything else 3 |
| Recommendation.InsertPermutes | ziwei/algorithm/jewelry_recommendation.py:108-112 | insertion adds exactly the inserted item |
| Recommendation.SortPermutes | ziwei/algorithm/jewelry_recommendation.py:108-112 | sorting is a permutation |
| Recommendation.InsertSorted | ziwei/algorithm/jewelry_recommendation.py:108-112 | insertion keeps a list sorted |
| Recommendation.SortSorted | ziwei/algorithm/jewelry_recommendation.py:108-112 | the sort orders by (tier rank, −number of digital tags) |
| Recommendation.WithKeyCons | ziwei/algorithm/jewelry_recommendation.py:108-112 | the items of one key in x::s are x's part then the tail's |
| Recommendation.InsertWithKey | ziwei/algorithm/jewelry_recommendation.py:108-112 | insertion puts x after the equal keys already present |
| Recommendation.SortStable | ziwei/algorithm/jewelry_recommendation.py:108-112 | the sort is stable: each key's items keep their order |
| Recommendation.StableSort | ziwei/algorithm/jewelry_recommendation.py:108-112 | the sort of the items is a permutation |
| Recommendation.SameElements | ziwei/algorithm/jewelry_recommendation.py:108-112 | a permutation has the same members |
| Recommendation.IdsOfAll | ziwei/algorithm/jewelry_recommendation.py:100-105 | the ids seen after the whole pass are the input's ids |
| Recommendation.DedupeIds | ziwei/algorithm/jewelry_recommendation.py:87-113 | empty input gives []; the ids are the input's and none repeats |
| Recommendation.DedupeFirsts | ziwei/algorithm/jewelry_recommendation.py:97-105 | the first occurrence of each id is the one kept |
| Recommendation.DedupeOrder | ziwei/algorithm/jewelry_recommendation.py:108-112 | sorted, and ties keep first-occurrence order |
| Recommendation.UniqueIdsPermuted | ziwei/algorithm/jewelry_recommendation.py:108-112 | sorting keeps ids unique |
| Recommendation.TwiceInSeq | ziwei/algorithm/jewelry_recommendation.py:108-112 | an item found twice has multiplicity at least 2 |
| Recommendation.OnceInUnique | ziwei/algorithm/jewelry_recommendation.py:108-112 | in a list without repeated ids every item has multiplicity 1 |
| Recommendation.DedupeSort | ziwei/algorithm/jewelry_recommendation.py:87-113 | the seen/out loop then the sort computes the deduplicated, sorted list |
| Recommendation.NaYinElement | ziwei/algorithm/jewelry_recommendation.py:50-56 | the last character of the pair's Na Yin, None when the pair is empty or not a NAYIN key |
| Recommendation.PatternNames | ziwei/algorithm/jewelry_recommendation.py:64-67 | exactly the pattern names of the entries |
| Recommendation.Engine.constructor | ziwei/algorithm/jewelry_recommendation.py:9-18 | keeps the database; no fees or empty fees give the defaults |
| Recommendation.Engine.GetFee | ziwei/algorithm/jewelry_recommendation.py:115-125 | the configured fee, else 0.0 |
| Recommendation.Engine.RecommendByYear | ziwei/algorithm/jewelry_recommendation.py:20-34 | [] without a bureau, otherwise the items of the bureau's element: the selection of the database in its order, membership both ways |
| Recommendation.Engine.RecommendByMonthDay | ziwei/algorithm/jewelry_recommendation.py:36-70 | the deduplicated, sorted concatenation of the month, day, life number and pattern items |
| Recommendation.Engine.RecommendByFengshui | ziwei/algorithm/jewelry_recommendation.py:72-85 | [] for empty tags |
| Recommendation.Engine.Recommend | ziwei/algorithm/jewelry_recommendation.py:127-168 | the three lists with their fees, the natal chart echoed, the fengshui list empty without tags |
| Recommendation.Engine.DefaultFeeValues | ziwei/algorithm/jewelry_recommendation.py:18 | the default fees are 0.0, 10.0 and 15.0, 0.0 for any other name |
| Recommendation.Engine.CandidatesReason | ziwei/algorithm/jewelry_recommendation.py:49-70 | an item is collected exactly when it is in the database and matches an element, the life number or a pattern |
| Recommendation.Engine.MonthDayMembers | ziwei/algorithm/jewelry_recommendation.py:49-70 | every result has such a reason, and every such item's id is in the result |
| Recommendation.Engine.FengshuiMembers | ziwei/algorithm/jewelry_recommendation.py:82-85 | every result shares a tag with the house, every such item's id appears, and the list is sorted |

## Left out

- `LifePalaceCalculator.solar_to_lunar` and `calc_life_body_palace_by_solar` call the external lunar calendar library. `Calculate` takes that library's outcome as an input: a lunar (month, day) or the exception it raises.
- `datetime.date` construction and subtraction. A date is an integer day offset from 1899-12-22, and `Calculate` takes that offset, or None when `datetime` would reject the date. The validity of Gregorian dates is not modelled.
- The debug `print`s and `generate_report`: they are console output formatting.
- ziwei/algorithm/wuxing_analysis.py. Its `analyze_wuxing` repeats the calculator's, which `WuxingBalance` models. Its `calculate` is broken and cannot run: it passes an int hour to `get_hour_ganzhi` and calls `arrange_aux_stars` with two arguments.
- ziwei/algorithm/main.py is a demonstration script. Its example date appears here as `Numerology.LifeNumberExample`.
- The Django models and serializers: they are persistence and HTTP glue.
- Floating point:
  - the element weights, ratios and fees are exact reals;
  - the weights are multiples of ½ over at most 14 stars, so the 0.15 comparison is exact.
- Exception messages: only the exception kind and its cause are recorded.
- `str.isdigit` is modelled for ASCII digits only.
- Python's `list.sort` (Timsort) is a stable insertion sort on values. `DedupeSort` reassigns its list instead of sorting it in place.
- Dictionaries are maps, and a missing key is `Option` or `""` (`dict.get`).
- Items are records holding only the fields the engine reads.
- `Recommendation.Engine.RecommendByFengshui`: the function's own contract says only that empty tags give []. Membership, ids and order are proved in `Recommendation.Engine.FengshuiMembers`.
- `ZhongZhou.Calculate`: `hour_int`, the `parse_hour` result, and the 阴阳 label are computed by the source but unused. They are not part of the chart, and `YinYangLabel` models the label on its own.
- `Numerology.DateString`: `f"{year}{month:02d}{day:02d}"` is written out by `PyStr` and `Pad2`. Its own contract states only a length bound.
