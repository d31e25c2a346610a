/** JewelryRecommendationEngine: picks jewellery from a database by the
    chart's bureau element, by the Na Yin elements of the month and day
    pairs, by the life number and digital fields, and by the tags of the
    house, then removes repeated ids and orders the result by price tier
    and tag count. */
module Recommendation {
  import opened Outcomes
  import opened GanZhi
  import Numerology

  /** An entry of digital_tags: the source mixes ints (life numbers) and
      strings (field names) in one list. */
  datatype Tag = NumTag(n: int) | TextTag(t: string)

  /** A jewellery record of the database. */
  datatype Item = Item(id: int, wuxing: string, priceTier: string,
                       digitalTags: seq<Tag>, fengshuiTags: seq<string>)

  // ------------------------------------------------------------ selection

  /** The conditions the list comprehensions test. */
  datatype Criterion =
    | HasWuxing(w: string)               // j["wuxing"] == w
    | HasNumber(n: int)                  // n in j["digital_tags"]
    | HasFieldTag(names: set<string>)    // names & set(j["digital_tags"])
    | HasFengshuiTag(tags: set<string>)  // tags & set(j["fengshui_tags"])

  predicate Meets(x: Item, c: Criterion) {
    match c
    case HasWuxing(w) => x.wuxing == w
    case HasNumber(n) => NumTag(n) in x.digitalTags
    case HasFieldTag(names) => exists i :: 0 <= i < |x.digitalTags| && x.digitalTags[i].TextTag? && x.digitalTags[i].t in names
    case HasFengshuiTag(tags) => exists i :: 0 <= i < |x.fengshuiTags| && x.fengshuiTags[i] in tags
  }

  /** The test of a criterion, as a function value. */
  function Test(c: Criterion): Item -> bool {
    x => Meets(x, c)
  }

  /** [j for j in db if c(j)]. */
  function Select(db: seq<Item>, c: Criterion): (r: seq<Item>)
    ensures |r| <= |db|
  {
    Filter(Test(c), db)
  }

  /** The elements of s that pass p, in order. */
  function Filter<T>(p: T -> bool, s: seq<T>): (r: seq<T>)
    ensures |r| <= |s|
  {
    if s == [] then [] else Passing(p, s[0]) + Filter(p, s[1..])
  }

  /** [x] when x passes p. */
  function Passing<T>(p: T -> bool, x: T): seq<T> {
    if p(x) then [x] else []
  }

  lemma FilterCons<T>(p: T -> bool, x: T, s: seq<T>)
    ensures Filter(p, [x] + s) == Passing(p, x) + Filter(p, s)
  {
    assert ([x] + s)[0] == x && ([x] + s)[1..] == s;
  }

  lemma {:induction false} FilterMembers<T>(p: T -> bool, s: seq<T>)
    ensures forall x :: x in Filter(p, s) <==> x in s && p(x)
  {
    if s != [] {
      assert s == [s[0]] + s[1..];
      FilterCons(p, s[0], s[1..]);
      FilterMembers(p, s[1..]);
    }
  }

  /** Filtering keeps the order: it distributes over concatenation. */
  lemma {:induction false} FilterConcat<T>(p: T -> bool, a: seq<T>, b: seq<T>)
    ensures Filter(p, a + b) == Filter(p, a) + Filter(p, b)
  {
    if a == [] {
      assert a + b == b;
    } else {
      ConcatTail(a, b);
      FilterUnfold(p, a + b);
      FilterUnfold(p, a);
      FilterConcat(p, a[1..], b);
      Associative(Passing(p, a[0]), Filter(p, a[1..]), Filter(p, b));
    }
  }

  lemma FilterUnfold<T>(p: T -> bool, s: seq<T>)
    requires s != []
    ensures Filter(p, s) == Passing(p, s[0]) + Filter(p, s[1..])
  {
  }

  lemma ConcatTail<T>(a: seq<T>, b: seq<T>)
    requires a != []
    ensures (a + b)[0] == a[0] && (a + b)[1..] == a[1..] + b
  {
  }

  lemma Associative<T>(a: seq<T>, b: seq<T>, c: seq<T>)
    ensures a + (b + c) == (a + b) + c
  {
  }

  /** The selected items are the database items that meet the condition. */
  lemma SelectMembers(db: seq<Item>, c: Criterion)
    ensures forall x :: x in Select(db, c) <==> x in db && Meets(x, c)
  {
    FilterMembers(Test(c), db);
  }

  /** Selection keeps the order of the database: it distributes over
      concatenation. */
  lemma SelectConcat(a: seq<Item>, b: seq<Item>, c: Criterion)
    ensures Select(a + b, c) == Select(a, c) + Select(b, c)
  {
    FilterConcat(Test(c), a, b);
  }

  // ------------------------------------------------------------ dedupe

  /** recs[j] is the first record with its id. */
  predicate IsFirst(recs: seq<Item>, j: int)
    requires 0 <= j < |recs|
  {
    forall q :: 0 <= q < j ==> recs[q].id != recs[j].id
  }

  /** The first records of each id among recs[..n], in order. */
  function Firsts(recs: seq<Item>, n: int): (r: seq<Item>)
    requires 0 <= n <= |recs|
    ensures |r| <= n
  {
    if n == 0 then []
    else Firsts(recs, n - 1) + (if IsFirst(recs, n - 1) then [recs[n - 1]] else [])
  }

  /** The ids of recs[..n]. */
  function IdsOf(recs: seq<Item>, n: int): set<int>
    requires 0 <= n <= |recs|
  {
    set q | 0 <= q < n :: recs[q].id
  }

  function Ids(s: seq<Item>): set<int> {
    set x | x in s :: x.id
  }

  /** The ids of Firsts are those of the input, each once, and every record
      of Firsts is a record of the input that no earlier record shares its
      id with. */
  lemma {:induction false} FirstsShape(recs: seq<Item>, n: int)
    requires 0 <= n <= |recs|
    ensures Ids(Firsts(recs, n)) == IdsOf(recs, n)
    ensures forall i, j :: 0 <= i < j < |Firsts(recs, n)| ==> Firsts(recs, n)[i].id != Firsts(recs, n)[j].id
    ensures forall x :: x in Firsts(recs, n) ==> exists j :: 0 <= j < n && recs[j] == x && IsFirst(recs, j)
  {
    if n > 0 {
      FirstsShape(recs, n - 1);
      var prev := Firsts(recs, n - 1);
      var x := recs[n - 1];
      if IsFirst(recs, n - 1) {
        assert x.id !in IdsOf(recs, n - 1);
        assert Firsts(recs, n) == prev + [x];
        assert Ids(prev + [x]) == Ids(prev) + {x.id};
      } else {
        var q :| 0 <= q < n - 1 && recs[q].id == x.id;
        assert x.id in IdsOf(recs, n - 1);
        assert Firsts(recs, n) == prev;
      }
      assert IdsOf(recs, n) == IdsOf(recs, n - 1) + {x.id};
    }
  }

  /** Every first record of an id is kept. */
  lemma {:induction false} FirstsComplete(recs: seq<Item>, n: int, j: int)
    requires 0 <= j < n <= |recs| && IsFirst(recs, j)
    ensures recs[j] in Firsts(recs, n)
  {
    if j < n - 1 {
      FirstsComplete(recs, n - 1, j);
    }
  }

  // ------------------------------------------------------------ sort

  /** The sort key of _dedupe_sort: the price tier rank, then the negated
      number of digital tags. */
  datatype SortKey = SortKey(tier: int, tags: int)

  /** tier_order.get(price_tier, 3). */
  function TierRank(t: string): (r: int)
    ensures 0 <= r <= 3
    ensures r == 0 <==> t == "high"
    ensures r == 1 <==> t == "mid"
    ensures r == 2 <==> t == "low"
  {
    if t == "high" then 0 else if t == "mid" then 1 else if t == "low" then 2 else 3
  }

  function KeyOf(x: Item): SortKey {
    SortKey(TierRank(x.priceTier), -|x.digitalTags|)
  }

  /** Tuple comparison: (a.tier, a.tags) <= (b.tier, b.tags). */
  predicate KeyLe(a: SortKey, b: SortKey) {
    a.tier < b.tier || (a.tier == b.tier && a.tags <= b.tags)
  }

  /** s is ordered by the key. */
  predicate SortedBy<T>(key: T -> SortKey, s: seq<T>) {
    forall i, j :: 0 <= i < j < |s| ==> KeyLe(key(s[i]), key(s[j]))
  }

  /** The elements of s with key k, in order. */
  function WithKeyBy<T>(key: T -> SortKey, s: seq<T>, k: SortKey): seq<T> {
    if s == [] then [] else Keep(key, s[0], k) + WithKeyBy(key, s[1..], k)
  }

  /** [y] when y has key k. */
  function Keep<T>(key: T -> SortKey, y: T, k: SortKey): seq<T> {
    if key(y) == k then [y] else []
  }

  /** Insert x in front of the first element whose key is not smaller. */
  function InsertBy<T>(key: T -> SortKey, x: T, s: seq<T>): seq<T> {
    if s == [] then [x]
    else if KeyLe(key(x), key(s[0])) then [x] + s
    else [s[0]] + InsertBy(key, x, s[1..])
  }

  /** A stable sort by the key, as an insertion sort from the back. */
  function SortBy<T>(key: T -> SortKey, s: seq<T>): seq<T> {
    if s == [] then [] else InsertBy(key, s[0], SortBy(key, s[1..]))
  }

  lemma {:induction false} InsertPermutes<T>(key: T -> SortKey, x: T, s: seq<T>)
    ensures multiset(InsertBy(key, x, s)) == multiset(s) + multiset{x}
  {
    if s != [] && !KeyLe(key(x), key(s[0])) {
      InsertPermutes(key, x, s[1..]);
      assert s == [s[0]] + s[1..];
    }
  }

  /** The sort is a permutation. */
  lemma {:induction false} SortPermutes<T>(key: T -> SortKey, s: seq<T>)
    ensures multiset(SortBy(key, s)) == multiset(s)
  {
    if s != [] {
      SortPermutes(key, s[1..]);
      InsertPermutes(key, s[0], SortBy(key, s[1..]));
      assert s == [s[0]] + s[1..];
    }
  }

  lemma {:induction false} InsertSorted<T>(key: T -> SortKey, x: T, s: seq<T>)
    requires SortedBy(key, s)
    ensures SortedBy(key, InsertBy(key, x, s))
  {
    if s != [] && !KeyLe(key(x), key(s[0])) {
      InsertSorted(key, x, s[1..]);
      var t := InsertBy(key, x, s[1..]);
      InsertPermutes(key, x, s[1..]);
      forall y | y in t
        ensures KeyLe(key(s[0]), key(y))
      {
        assert y in multiset(t);
      }
    }
  }

  /** The result of the sort is ordered by the key. */
  lemma {:induction false} SortSorted<T>(key: T -> SortKey, s: seq<T>)
    ensures SortedBy(key, SortBy(key, s))
  {
    if s != [] {
      SortSorted(key, s[1..]);
      InsertSorted(key, s[0], SortBy(key, s[1..]));
    }
  }

  lemma WithKeyCons<T>(key: T -> SortKey, x: T, s: seq<T>, k: SortKey)
    ensures WithKeyBy(key, [x] + s, k) == Keep(key, x, k) + WithKeyBy(key, s, k)
  {
    assert ([x] + s)[0] == x && ([x] + s)[1..] == s;
  }

  lemma {:induction false} InsertWithKey<T>(key: T -> SortKey, x: T, s: seq<T>, k: SortKey)
    ensures WithKeyBy(key, InsertBy(key, x, s), k) == Keep(key, x, k) + WithKeyBy(key, s, k)
  {
    if s == [] {
      assert InsertBy(key, x, s) == [x] + [];
      WithKeyCons(key, x, [], k);
    } else if KeyLe(key(x), key(s[0])) {
      assert InsertBy(key, x, s) == [x] + s;
      WithKeyCons(key, x, s, k);
    } else {
      var t := InsertBy(key, x, s[1..]);
      var a, b, rest := Keep(key, s[0], k), Keep(key, x, k), WithKeyBy(key, s[1..], k);
      assert InsertBy(key, x, s) == [s[0]] + t;
      InsertWithKey(key, x, s[1..], k);
      assert WithKeyBy(key, t, k) == b + rest;
      WithKeyCons(key, s[0], t, k);
      assert WithKeyBy(key, InsertBy(key, x, s), k) == a + (b + rest);
      assert s == [s[0]] + s[1..];
      WithKeyCons(key, s[0], s[1..], k);
      assert WithKeyBy(key, s, k) == a + rest;
      assert a == [] || b == [];
      if a == [] {
        assert a + (b + rest) == b + rest;
        assert b + (a + rest) == b + rest;
      } else {
        assert a + (b + rest) == a + rest;
      }
    }
  }

  /** The sort is stable: the elements of each key keep their order. */
  lemma {:induction false} SortStable<T>(key: T -> SortKey, s: seq<T>, k: SortKey)
    ensures WithKeyBy(key, SortBy(key, s), k) == WithKeyBy(key, s, k)
  {
    if s != [] {
      SortStable(key, s[1..], k);
      InsertWithKey(key, s[0], SortBy(key, s[1..]), k);
    }
  }

  /** The items of s ordered by the key of _dedupe_sort. */
  predicate Sorted(s: seq<Item>) {
    SortedBy(KeyOf, s)
  }

  /** The items of s with key k, in order. */
  function WithKey(s: seq<Item>, k: SortKey): seq<Item> {
    WithKeyBy(KeyOf, s, k)
  }

  /** list.sort with the key of _dedupe_sort. */
  function StableSort(s: seq<Item>): (r: seq<Item>)
    ensures multiset(r) == multiset(s)
  {
    SortPermutes(KeyOf, s);
    SortBy(KeyOf, s)
  }

  /** _dedupe_sort: no repeated id, first records only, sorted stably. */
  function DedupeSorted(recs: seq<Item>): seq<Item> {
    StableSort(Firsts(recs, |recs|))
  }

  /** A permutation has the same elements. */
  lemma SameElements(f: seq<Item>, r: seq<Item>)
    requires multiset(r) == multiset(f)
    ensures forall x :: x in r <==> x in f
  {
    forall x ensures x in r <==> x in f {
      assert x in r <==> x in multiset(r);
      assert x in f <==> x in multiset(f);
    }
  }

  lemma IdsOfAll(recs: seq<Item>)
    ensures IdsOf(recs, |recs|) == Ids(recs)
  {
    forall id | id in Ids(recs) ensures id in IdsOf(recs, |recs|) {
      var x :| x in recs && x.id == id;
      var q :| 0 <= q < |recs| && recs[q] == x;
    }
  }

  /** _dedupe_sort returns [] for [], keeps exactly the ids of its input
      and repeats none. */
  lemma DedupeIds(recs: seq<Item>)
    ensures recs == [] ==> DedupeSorted(recs) == []
    ensures Ids(DedupeSorted(recs)) == Ids(recs)
    ensures forall i, j :: 0 <= i < j < |DedupeSorted(recs)| ==> DedupeSorted(recs)[i].id != DedupeSorted(recs)[j].id
  {
    var f := Firsts(recs, |recs|);
    FirstsShape(recs, |recs|);
    SameElements(f, DedupeSorted(recs));
    assert Ids(DedupeSorted(recs)) == Ids(f);
    IdsOfAll(recs);
    UniqueIdsPermuted(f, DedupeSorted(recs));
  }

  /** _dedupe_sort keeps the first record of each id and no other. */
  lemma DedupeFirsts(recs: seq<Item>)
    ensures forall j :: 0 <= j < |recs| && IsFirst(recs, j) ==> recs[j] in DedupeSorted(recs)
    ensures forall x :: x in DedupeSorted(recs) ==> exists j :: 0 <= j < |recs| && recs[j] == x && IsFirst(recs, j)
  {
    var f := Firsts(recs, |recs|);
    FirstsShape(recs, |recs|);
    SameElements(f, DedupeSorted(recs));
    forall j | 0 <= j < |recs| && IsFirst(recs, j) ensures recs[j] in DedupeSorted(recs) {
      FirstsComplete(recs, |recs|, j);
    }
  }

  /** _dedupe_sort orders by the key, and records with equal keys keep
      their first-occurrence order. */
  lemma DedupeOrder(recs: seq<Item>)
    ensures Sorted(DedupeSorted(recs))
    ensures forall k :: WithKey(DedupeSorted(recs), k) == WithKey(Firsts(recs, |recs|), k)
  {
    var f := Firsts(recs, |recs|);
    SortSorted(KeyOf, f);
    forall k ensures WithKey(DedupeSorted(recs), k) == WithKey(f, k) {
      SortStable(KeyOf, f, k);
    }
  }

  /** A permutation of a list without repeated ids has none either. */
  lemma UniqueIdsPermuted(f: seq<Item>, r: seq<Item>)
    requires multiset(r) == multiset(f)
    requires forall i, j :: 0 <= i < j < |f| ==> f[i].id != f[j].id
    ensures forall i, j :: 0 <= i < j < |r| ==> r[i].id != r[j].id
  {
    forall i, j | 0 <= i < j < |r|
      ensures r[i].id != r[j].id
    {
      if r[i].id == r[j].id {
        assert r[i] in multiset(f) && r[j] in multiset(f);
        var a :| 0 <= a < |f| && f[a] == r[i];
        var b :| 0 <= b < |f| && f[b] == r[j];
        if a == b {
          // the same record twice in r: it occurs twice in f as well
          assert r[i] == r[j];
          TwiceInSeq(r, i, j);
          assert multiset(f)[r[i]] >= 2;
          OnceInUnique(f, a);
          assert false;
        }
      }
    }
  }

  lemma TwiceInSeq(s: seq<Item>, i: int, j: int)
    requires 0 <= i < j < |s| && s[i] == s[j]
    ensures multiset(s)[s[i]] >= 2
  {
    assert s == s[..i] + [s[i]] + s[i + 1..j] + [s[j]] + s[j + 1..];
  }

  lemma OnceInUnique(f: seq<Item>, a: int)
    requires 0 <= a < |f|
    requires forall i, j :: 0 <= i < j < |f| ==> f[i].id != f[j].id
    ensures multiset(f)[f[a]] == 1
  {
    assert f == f[..a] + [f[a]] + f[a + 1..];
    assert f[a] !in f[..a] by {
      forall q | 0 <= q < a ensures f[q] != f[a] { assert f[q].id != f[a].id; }
    }
    assert f[a] !in f[a + 1..] by {
      forall q | a + 1 <= q < |f| ensures f[q] != f[a] { assert f[a].id != f[q].id; }
    }
    assert multiset(f[..a])[f[a]] == 0;
    assert multiset(f[a + 1..])[f[a]] == 0;
  }

  /** JewelryRecommendationEngine._dedupe_sort: the seen/out loop, then
      out.sort(key=...). */
  method DedupeSort(recs: seq<Item>) returns (out: seq<Item>)
    ensures out == DedupeSorted(recs)
  {
    if recs == [] {
      return [];
    }
    var seen: set<int> := {};
    out := [];
    for i := 0 to |recs|
      invariant out == Firsts(recs, i)
      invariant seen == IdsOf(recs, i)
    {
      assert recs[i].id in seen <==> !IsFirst(recs, i);
      if recs[i].id !in seen {
        seen := seen + {recs[i].id};
        out := out + [recs[i]];
      }
      assert IdsOf(recs, i + 1) == IdsOf(recs, i) + {recs[i].id};
    }
    out := StableSort(out);
  }

  // ------------------------------------------------------------ the engine

  /** The fees used when none are configured. */
  const DefaultFees: map<string, real> := map["year" := 0.0, "month_day" := 10.0, "fengshui" := 15.0]

  /** dict.get(key, ""). */
  function Lookup(d: map<string, string>, key: string): string {
    if key in d then d[key] else ""
  }

  /** The element of the Na Yin of a pair, nayin[-1], when the pair is a
      key of NAYIN. */
  function NaYinElement(gz: string): (r: Option<string>)
    ensures r.Some? <==> gz != [] && NaYinOf(gz).Some?
    ensures r.Some? ==> |r.value| == 1
  {
    if gz == [] then None
    else match NaYinOf(gz)
      case None => None
      case Some(n) => if n == [] then None else Some([n[|n| - 1]])
  }

  /** The names of the digital patterns. */
  function PatternNames(patterns: seq<Numerology.FieldEntry>): (s: set<string>)
    ensures forall e :: e in patterns ==> e.pattern in s
    ensures forall n :: n in s ==> exists e :: e in patterns && e.pattern == n
  {
    set e | e in patterns :: e.pattern
  }

  /** The result of recommend: each list with its fee. */
  datatype Offer = Offer(items: seq<Item>, fee: real)
  datatype Report = Report(natalChart: map<string, string>, yearRecommend: Offer,
                           monthDayRecommend: Offer, fengshuiRecommend: Offer)

  class Engine {
    var db: seq<Item>
    var fees: map<string, real>

    /** JewelryRecommendationEngine.__init__: `fees or` the defaults, so an
        empty dictionary is replaced as well. */
    constructor(jewelryDb: seq<Item>, customFees: Option<map<string, real>>)
      ensures db == jewelryDb
      ensures customFees.None? || customFees.value == map[] ==> fees == DefaultFees
      ensures customFees.Some? && customFees.value != map[] ==> fees == customFees.value
    {
      db := jewelryDb;
      fees := if customFees.None? || customFees.value == map[] then DefaultFees else customFees.value;
    }

    /** get_fee: the configured fee, 0.0 for any other method. */
    function GetFee(name: string): (f: real)
      reads this
      ensures name in fees ==> f == fees[name]
      ensures name !in fees ==> f == 0.0
    {
      if name in fees then fees[name] else 0.0
    }

    /** recommend_by_year: nothing without a bureau, otherwise the items of
        the bureau's element (its first character), in database order and
        with their multiplicity: the selection of the database by that
        element. */
    function RecommendByYear(natal: map<string, string>): (r: seq<Item>)
      reads this
      ensures Lookup(natal, "wuxing_bureau") == [] ==> r == []
      ensures Lookup(natal, "wuxing_bureau") != [] ==>
        forall x :: x in r <==> x in db && x.wuxing == [Lookup(natal, "wuxing_bureau")[0]]
    ensures Lookup(natal, "wuxing_bureau") != [] ==>
      r == Select(db, HasWuxing([Lookup(natal, "wuxing_bureau")[0]]))
    {
      var bureau := Lookup(natal, "wuxing_bureau");
      if bureau == [] then []
      else
        SelectMembers(db, HasWuxing([bureau[0]]));
        Select(db, HasWuxing([bureau[0]]))
    }

    /** The records recommend_by_month_day collects before _dedupe_sort. */
    function MonthDayCandidates(birthDate: map<string, string>, lifeNumber: int,
                                patterns: seq<Numerology.FieldEntry>): seq<Item>
      reads this
    {
      ElementItems(Lookup(birthDate, "month_ganzhi"))
      + ElementItems(Lookup(birthDate, "day_ganzhi"))
      + (if lifeNumber != 0 then Select(db, HasNumber(lifeNumber)) else [])
      + (if PatternNames(patterns) != {} then Select(db, HasFieldTag(PatternNames(patterns))) else [])
    }

    /** The items of the Na Yin element of a pair, none for a pair that is
        empty or not a key of NAYIN. */
    function ElementItems(gz: string): seq<Item>
      reads this
    {
      match NaYinElement(gz)
      case None => []
      case Some(w) => Select(db, HasWuxing(w))
    }

    /** recommend_by_month_day: grows the list with += for the month and
        the day, the life number and the digital fields, then dedupes and
        sorts it. */
    method RecommendByMonthDay(birthDate: map<string, string>, lifeNumber: int,
                               patterns: seq<Numerology.FieldEntry>) returns (r: seq<Item>)
      ensures r == DedupeSorted(MonthDayCandidates(birthDate, lifeNumber, patterns))
    {
      var recs: seq<Item> := [];
      var pairs := [Lookup(birthDate, "month_ganzhi"), Lookup(birthDate, "day_ganzhi")];
      for k := 0 to 2
        invariant k == 0 ==> recs == []
        invariant k == 1 ==> recs == ElementItems(pairs[0])
        invariant k == 2 ==> recs == ElementItems(pairs[0]) + ElementItems(pairs[1])
      {
        var gz := pairs[k];
        if gz != [] {
          var nayin := NaYinOf(gz);
          if nayin.Some? && nayin.value != [] {
            var wux := [nayin.value[|nayin.value| - 1]];
            recs := recs + Select(db, HasWuxing(wux));
          }
        }
        assert recs == (if k == 0 then [] else ElementItems(pairs[0])) + ElementItems(pairs[k]);
      }
      if lifeNumber != 0 {
        recs := recs + Select(db, HasNumber(lifeNumber));
      }
      var dpats := PatternNames(patterns);
      if dpats != {} {
        recs := recs + Select(db, HasFieldTag(dpats));
      }
      assert recs == MonthDayCandidates(birthDate, lifeNumber, patterns);
      r := DedupeSort(recs);
    }

    /** recommend_by_fengshui: nothing without tags, otherwise the items
        sharing a tag with the house, deduped and sorted. */
    function RecommendByFengshui(houseTags: seq<string>): (r: seq<Item>)
      reads this
      ensures houseTags == [] ==> r == []
    {
      if houseTags == [] then []
      else DedupeSorted(Select(db, HasFengshuiTag(set t | t in houseTags)))
    }

    /** recommend: the three lists with their fees; the fengshui list
        stays empty without house tags, and the natal chart is echoed. */
    method Recommend(natal: map<string, string>, birthDate: map<string, string>, lifeNumber: int,
                     patterns: seq<Numerology.FieldEntry>, houseTags: Option<seq<string>>)
      returns (rep: Report)
      ensures rep.natalChart == natal
      ensures rep.yearRecommend == Offer(RecommendByYear(natal), GetFee("year"))
      ensures rep.monthDayRecommend ==
        Offer(DedupeSorted(MonthDayCandidates(birthDate, lifeNumber, patterns)), GetFee("month_day"))
      ensures houseTags.None? || houseTags.value == [] ==> rep.fengshuiRecommend.items == []
      ensures houseTags.Some? ==> rep.fengshuiRecommend.items == RecommendByFengshui(houseTags.value)
      ensures rep.fengshuiRecommend.fee == GetFee("fengshui")
    {
      var yearList := RecommendByYear(natal);
      var monthDayList := RecommendByMonthDay(birthDate, lifeNumber, patterns);
      var fengList: seq<Item> := [];
      if houseTags.Some? && houseTags.value != [] {
        fengList := RecommendByFengshui(houseTags.value);
      }
      rep := Report(natal, Offer(yearList, GetFee("year")), Offer(monthDayList, GetFee("month_day")),
                    Offer(fengList, GetFee("fengshui")));
    }

    // ---------------------------------------------------------- lemmas

    /** Without configured fees the year list is free, the month and day
        list costs 10.0 and the fengshui list 15.0. */
    lemma DefaultFeeValues()
      requires fees == DefaultFees
      ensures GetFee("year") == 0.0 && GetFee("month_day") == 10.0 && GetFee("fengshui") == 15.0
      ensures forall m :: m !in {"year", "month_day", "fengshui"} ==> GetFee(m) == 0.0
    {
    }

    /** An item is collected by recommend_by_month_day exactly when it is
        in the database and has a reason to be. */
    lemma CandidatesReason(birthDate: map<string, string>, lifeNumber: int,
                           patterns: seq<Numerology.FieldEntry>, x: Item)
      ensures x in MonthDayCandidates(birthDate, lifeNumber, patterns) <==>
        x in db && MonthDayReason(x, birthDate, lifeNumber, patterns)
    {
      var m := ElementItems(Lookup(birthDate, "month_ganzhi"));
      var d := ElementItems(Lookup(birthDate, "day_ganzhi"));
      var l := if lifeNumber != 0 then Select(db, HasNumber(lifeNumber)) else [];
      var names := PatternNames(patterns);
      var t := if names != {} then Select(db, HasFieldTag(names)) else [];
      assert MonthDayCandidates(birthDate, lifeNumber, patterns) == m + d + l + t;
      SelectMembers(db, HasNumber(lifeNumber));
      SelectMembers(db, HasFieldTag(names));
      match NaYinElement(Lookup(birthDate, "month_ganzhi")) {
        case None =>
        case Some(w) => SelectMembers(db, HasWuxing(w));
      }
      match NaYinElement(Lookup(birthDate, "day_ganzhi")) {
        case None =>
        case Some(w) => SelectMembers(db, HasWuxing(w));
      }
      assert x in m + d + l + t <==> x in m || x in d || x in l || x in t;
      assert names == {} ==> !Meets(x, HasFieldTag(names));
    }

    /** A month and day item either matches the Na Yin element of the month
        or the day, carries the life number, or carries a field name; every
        database item doing so is represented by its id. */
    lemma MonthDayMembers(birthDate: map<string, string>, lifeNumber: int,
                          patterns: seq<Numerology.FieldEntry>)
      ensures forall x :: x in DedupeSorted(MonthDayCandidates(birthDate, lifeNumber, patterns)) ==>
        x in db && MonthDayReason(x, birthDate, lifeNumber, patterns)
      ensures forall x :: x in db && MonthDayReason(x, birthDate, lifeNumber, patterns) ==>
        x.id in Ids(DedupeSorted(MonthDayCandidates(birthDate, lifeNumber, patterns)))
    {
      var c := MonthDayCandidates(birthDate, lifeNumber, patterns);
      var r := DedupeSorted(c);
      DedupeIds(c);
      DedupeFirsts(c);
      forall x | x in r
        ensures x in db && MonthDayReason(x, birthDate, lifeNumber, patterns)
      {
        var j :| 0 <= j < |c| && c[j] == x && IsFirst(c, j);
        CandidatesReason(birthDate, lifeNumber, patterns, x);
      }
      forall x | x in db && MonthDayReason(x, birthDate, lifeNumber, patterns)
        ensures x.id in Ids(r)
      {
        CandidatesReason(birthDate, lifeNumber, patterns, x);
        assert x.id in Ids(c);
      }
    }

    /** Why recommend_by_month_day picks an item. */
    predicate MonthDayReason(x: Item, birthDate: map<string, string>, lifeNumber: int,
                             patterns: seq<Numerology.FieldEntry>)
      reads this
    {
      || NaYinElement(Lookup(birthDate, "month_ganzhi")) == Some(x.wuxing)
      || NaYinElement(Lookup(birthDate, "day_ganzhi")) == Some(x.wuxing)
      || (lifeNumber != 0 && NumTag(lifeNumber) in x.digitalTags)
      || Meets(x, HasFieldTag(PatternNames(patterns)))
    }

    /** A fengshui item shares a tag with the house, every database item
        that does is represented by its id, and the list is ordered by the
        key without a repeated id. */
    lemma FengshuiMembers(houseTags: seq<string>)
      requires houseTags != []
      ensures forall x :: x in RecommendByFengshui(houseTags) ==>
        x in db && exists i :: 0 <= i < |x.fengshuiTags| && x.fengshuiTags[i] in houseTags
      ensures forall x :: x in db && (exists i :: 0 <= i < |x.fengshuiTags| && x.fengshuiTags[i] in houseTags) ==>
        x.id in Ids(RecommendByFengshui(houseTags))
      ensures Sorted(RecommendByFengshui(houseTags))
    {
      var tags := set t | t in houseTags;
      var c := Select(db, HasFengshuiTag(tags));
      SelectMembers(db, HasFengshuiTag(tags));
      DedupeIds(c);
      DedupeFirsts(c);
      DedupeOrder(c);
      forall x | x in RecommendByFengshui(houseTags)
        ensures x in db && exists i :: 0 <= i < |x.fengshuiTags| && x.fengshuiTags[i] in houseTags
      {
        var j :| 0 <= j < |c| && c[j] == x && IsFirst(c, j);
        assert x in c;
      }
      forall x | x in db && (exists i :: 0 <= i < |x.fengshuiTags| && x.fengshuiTags[i] in houseTags)
        ensures x.id in Ids(RecommendByFengshui(houseTags))
      {
        var i :| 0 <= i < |x.fengshuiTags| && x.fengshuiTags[i] in houseTags;
        assert x.fengshuiTags[i] in tags;
        assert Meets(x, HasFengshuiTag(tags));
        assert x in c;
        assert x.id in Ids(c);
      }
    }
  }
}
