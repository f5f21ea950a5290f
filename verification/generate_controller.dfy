/** The exam-paper generator (backend/controllers/generateController.js):
    validation of the count configuration, the split of a request into
    buckets, the capped selection from each bucket, and the response. */
module GenerateController {
  import opened Wrappers
  import opened JsValues
  import opened QuestionStore

  // ---------------------------------------------------------------------------
  // Configuration

  /** One `[key, count]` pair of `Object.entries` over a count object. */
  datatype Entry = Entry(key: int, count: int)

  /** A count object (`btLevelCounts`, `unitCounts`) as the list of its
      entries, in the order `Object.entries` visits them. */
  type CountMap = seq<Entry>

  /** The configuration of one kind of question. */
  datatype TypeConfig = TypeConfig(
    useUnitWise: bool,
    useBtLevels: bool,
    totalCount: int,
    btLevelCounts: CountMap,
    unitCounts: CountMap)

  datatype PaperConfig = PaperConfig(short: TypeConfig, long: TypeConfig)

  /** `config[type]`. */
  function ConfigFor(c: PaperConfig, kind: Kind): TypeConfig {
    if kind == Short then c.short else c.long
  }

  /** `Object.values(m).reduce((a, b) => a + b, 0)`, a left fold. */
  function Sum(m: CountMap): int {
    if m == [] then 0 else Sum(m[..|m| - 1]) + m[|m| - 1].count
  }

  /** The sum of the positive counts only. */
  function PositiveSum(m: CountMap): int {
    if m == [] then 0
    else PositiveSum(m[..|m| - 1]) + (if m[|m| - 1].count > 0 then m[|m| - 1].count else 0)
  }

  predicate AllNonNegative(m: CountMap) {
    forall i :: 0 <= i < |m| ==> m[i].count >= 0
  }

  predicate HasPositive(m: CountMap) {
    exists i :: 0 <= i < |m| && m[i].count > 0
  }

  predicate CountsNonNegative(c: TypeConfig) {
    AllNonNegative(c.btLevelCounts) && AllNonNegative(c.unitCounts)
  }

  /** With no negative count, the positive counts are all there is. */
  lemma {:induction false} PositiveSumOfNonNegative(m: CountMap)
    requires AllNonNegative(m)
    ensures PositiveSum(m) == Sum(m)
    ensures Sum(m) >= 0
    ensures HasPositive(m) ==> Sum(m) > 0
  {
    if m != [] {
      var init := m[..|m| - 1];
      assert AllNonNegative(init) by {
        forall i | 0 <= i < |init| ensures init[i].count >= 0 {
          assert init[i] == m[i];
        }
      }
      PositiveSumOfNonNegative(init);
      if HasPositive(m) && m[|m| - 1].count <= 0 {
        var i :| 0 <= i < |m| && m[i].count > 0;
        assert init[i] == m[i];
      }
    }
  }

  // ---------------------------------------------------------------------------
  // validateConfig

  /** The consistency the validation enforces: with BT levels on, the BT-level
      counts must add up to the total count (total mode) or to the sum of the
      unit counts (unit-wise mode). With BT levels off nothing is required. */
  predicate ConsistentCounts(c: TypeConfig) {
    c.useBtLevels ==> Sum(c.btLevelCounts) == (if c.useUnitWise then Sum(c.unitCounts) else c.totalCount)
  }

  /** The two errors `validateConfig` throws, with the numbers it reports. */
  datatype ConfigError =
    | TotalMismatch(kind: Kind, totalCount: int, btSum: int)
    | UnitMismatch(kind: Kind, unitSum: int, btSum: int)

  /** The `message` of the thrown `Error`. */
  function ErrorMessage(e: ConfigError): string {
    match e
    case TotalMismatch(kind, total, bt) =>
      Report("Total count (", total,
             ") must match sum of BT level counts (" + IntToString(bt) + ") for " + KindName(kind) + " questions")
    case UnitMismatch(kind, units, bt) =>
      Report("Total unit-wise count (", units,
             ") must match total BT level count (" + IntToString(bt) + ") for " + KindName(kind) + " questions")
  }

  /** A template literal with one number: `${start}${n}${rest}`. */
  function Report(start: string, n: int, rest: string): string {
    start + IntToString(n) + rest
  }

  /** The message of a total-count mismatch starts with the total count,
      which reads back with `parseInt`, and ends with the kind. */
  lemma TotalMessageReports(kind: Kind, total: int, bt: int)
    ensures var m, start := ErrorMessage(TotalMismatch(kind, total, bt)), "Total count (";
            && m[..|start|] == start && ParseInt(m[|start|..]) == Some(total)
            && EndsWith(m, KindName(kind) + " questions")
  {
    var start, tail := "Total count (", KindName(kind) + " questions";
    var middle := ") must match sum of BT level counts (" + IntToString(bt) + ") for ";
    assert ErrorMessage(TotalMismatch(kind, total, bt)) == Report(start, total, middle + tail);
    ReportParts(start, total, middle, tail);
  }

  /** The same for a unit-wise mismatch and the unit counts' sum. */
  lemma UnitMessageReports(kind: Kind, units: int, bt: int)
    ensures var m, start := ErrorMessage(UnitMismatch(kind, units, bt)), "Total unit-wise count (";
            && m[..|start|] == start && ParseInt(m[|start|..]) == Some(units)
            && EndsWith(m, KindName(kind) + " questions")
  {
    var start, tail := "Total unit-wise count (", KindName(kind) + " questions";
    var middle := ") must match total BT level count (" + IntToString(bt) + ") for ";
    assert ErrorMessage(UnitMismatch(kind, units, bt)) == Report(start, units, middle + tail);
    ReportParts(start, units, middle, tail);
  }

  predicate EndsWith(m: string, tail: string) {
    |m| >= |tail| && m[|m| - |tail|..] == tail
  }

  /** A number written between a text and a closing parenthesis reads back,
      and the text after it ends the message. */
  lemma ReportParts(start: string, n: int, middle: string, tail: string)
    requires middle != [] && middle[0] == ')'
    ensures var m := Report(start, n, middle + tail);
            m[..|start|] == start && ParseInt(m[|start|..]) == Some(n) && EndsWith(m, tail)
  {
    ReportNumber(start, n, middle + tail);
    ReportTail(start, n, middle, tail);
  }

  lemma ReportNumber(start: string, n: int, rest: string)
    requires rest != [] && rest[0] == ')'
    ensures ParseInt(Report(start, n, rest)[|start|..]) == Some(n)
  {
    assert Report(start, n, rest)[|start|..] == IntToString(n) + rest;
    ParseIntOfDecimal(n, rest);
  }

  lemma ReportTail(start: string, n: int, middle: string, tail: string)
    ensures EndsWith(Report(start, n, middle + tail), tail)
  {
    var m := Report(start, n, middle + tail);
    assert m == (start + IntToString(n) + middle) + tail;
  }

  /** `validateConfig(config, type)`: `None` when it returns, the error when it throws. */
  function ValidateConfig(c: TypeConfig, kind: Kind): (r: Option<ConfigError>)
    ensures r.None? <==> ConsistentCounts(c)
    ensures r.Some? ==> c.useBtLevels && r.value.kind == kind && r.value.btSum == Sum(c.btLevelCounts)
    ensures r.Some? && r.value.TotalMismatch? ==> !c.useUnitWise && r.value.totalCount == c.totalCount
    ensures r.Some? && r.value.UnitMismatch? ==> c.useUnitWise && r.value.unitSum == Sum(c.unitCounts)
  {
    if !c.useUnitWise && c.useBtLevels && Sum(c.btLevelCounts) != c.totalCount then
      Some(TotalMismatch(kind, c.totalCount, Sum(c.btLevelCounts)))
    else if c.useUnitWise && c.useBtLevels && Sum(c.unitCounts) != Sum(c.btLevelCounts) then
      Some(UnitMismatch(kind, Sum(c.unitCounts), Sum(c.btLevelCounts)))
    else
      None
  }

  /** The two calls of `generatePaper`, short first: the first error thrown. */
  function ValidatePaperConfig(c: PaperConfig): (r: Option<ConfigError>)
    ensures r.None? <==> ConsistentCounts(c.short) && ConsistentCounts(c.long)
    ensures r.Some? ==> (r.value.kind == Short <==> !ConsistentCounts(c.short))
    ensures r.Some? ==> r == ValidateConfig(ConfigFor(c, r.value.kind), r.value.kind)
  {
    match ValidateConfig(c.short, Short)
    case Some(e) => Some(e)
    case None => ValidateConfig(c.long, Long)
  }

  // ---------------------------------------------------------------------------
  // The split of a unit's count across BT levels

  /** The sign-normalised numerator and the magnitude of the denominator of a
      fraction `p / total`. */
  function Numerator(p: int, total: int): int {
    if total > 0 then p else -p
  }

  function Magnitude(total: int): int {
    if total > 0 then total else -total
  }

  /** `Math.round(btCount / total * unitCount)` in exact arithmetic: the
      floor of the fraction plus one half. */
  function Share(btCount: int, unitCount: int, total: int): int
    requires total != 0
  {
    var p, d := Numerator(btCount * unitCount, total), Magnitude(total);
    (2 * p + d) / (2 * d)
  }

  /** The share is the integer nearest to `btCount * unitCount / total`,
      halves rounded up. */
  lemma ShareBounds(btCount: int, unitCount: int, total: int)
    requires total != 0
    ensures var p, d, r := Numerator(btCount * unitCount, total), Magnitude(total), Share(btCount, unitCount, total);
            2 * p - d < 2 * r * d <= 2 * p + d
  {
    var p, d := Numerator(btCount * unitCount, total), Magnitude(total);
    var r := (2 * p + d) / (2 * d);
    assert 2 * p + d == (2 * d) * r + (2 * p + d) % (2 * d);
  }

  /** Every BT level's share of `unitCount`, given the total of the BT counts. */
  function SplitWith(bt: CountMap, unitCount: int, total: int): (r: CountMap)
    requires total != 0
    ensures |r| == |bt|
  {
    seq(|bt|, i requires 0 <= i < |bt| => Entry(bt[i].key, Share(bt[i].count, unitCount, total)))
  }

  /** `unitBtCounts`: each BT level of `bt`, in order, with its rounded
      proportional share of the unit's count. */
  function UnitSplit(bt: CountMap, unitCount: int): (r: CountMap)
    requires bt == [] || Sum(bt) != 0
  {
    if bt == [] then [] else SplitWith(bt, unitCount, Sum(bt))
  }

  lemma SplitWithPrefix(bt: CountMap, unitCount: int, total: int, n: nat)
    requires total != 0 && n <= |bt|
    ensures SplitWith(bt, unitCount, total)[..n] == SplitWith(bt[..n], unitCount, total)
  {
  }

  lemma Distribute(a: int, b: int, c: int)
    ensures (a + b) * c == a * c + b * c
  {
  }

  /** Summing the rounding bounds of every share. */
  lemma {:induction false} SplitWithSum(bt: CountMap, unitCount: int, total: int)
    requires total != 0
    ensures var p, d, s := Numerator(Sum(bt) * unitCount, total), Magnitude(total), Sum(SplitWith(bt, unitCount, total));
            && 2 * p - |bt| * d <= 2 * s * d <= 2 * p + |bt| * d
            && (bt != [] ==> 2 * p - |bt| * d < 2 * s * d)
  {
    if bt != [] {
      var n := |bt|;
      var init := bt[..n - 1];
      var split := SplitWith(bt, unitCount, total);
      SplitWithPrefix(bt, unitCount, total, n - 1);
      SplitWithSum(init, unitCount, total);
      var d := Magnitude(total);
      var b := bt[n - 1].count;
      var r := Share(b, unitCount, total);
      ShareBounds(b, unitCount, total);
      assert split[n - 1].count == r;
      var s0 := Sum(SplitWith(init, unitCount, total));
      var p0 := Numerator(Sum(init) * unitCount, total);
      var pb := Numerator(b * unitCount, total);
      assert 2 * pb - d < 2 * r * d <= 2 * pb + d;
      assert Sum(split) == s0 + r;
      assert Sum(bt) == Sum(init) + b;
      Distribute(Sum(init), b, unitCount);
      assert Numerator(Sum(bt) * unitCount, total) == p0 + pb;
      Distribute(2 * s0, 2 * r, d);
      Distribute(n - 1, 1, d);
      assert 2 * p0 - (n - 1) * d <= 2 * s0 * d <= 2 * p0 + (n - 1) * d;
    }
  }

  /** Within one unit the shares add up to the unit's count give or take half
      the number of BT levels: rounding each share on its own can overshoot or
      undershoot the unit's count, and nothing corrects it. */
  lemma UnitSplitSum(bt: CountMap, unitCount: int)
    requires Sum(bt) != 0
    ensures 2 * unitCount - |bt| < 2 * Sum(UnitSplit(bt, unitCount)) <= 2 * unitCount + |bt|
  {
    var total := Sum(bt);
    SplitWithSum(bt, unitCount, total);
    NumeratorOfTotal(total, unitCount);
    ScaledBounds(unitCount, |bt|, Sum(SplitWith(bt, unitCount, total)), Magnitude(total),
                 Numerator(total * unitCount, total));
  }

  /** Dividing the summed rounding bounds by the magnitude of the total. */
  lemma ScaledBounds(u: int, n: int, s: int, d: int, p: int)
    requires d > 0 && p == u * d
    requires 2 * p - n * d < 2 * s * d <= 2 * p + n * d
    ensures 2 * u - n < 2 * s <= 2 * u + n
  {
    Distribute(2 * u, -n, d);
    Distribute(2 * u, n + 1, d);
    assert (2 * u - n) * d < (2 * s) * d;
    assert (2 * s) * d < (2 * u + n + 1) * d;
    MultiplyCancel(d, 2 * u - n, 2 * s);
    MultiplyCancel(d, 2 * s, 2 * u + n + 1);
  }

  lemma MultiplyCancel(d: int, x: int, y: int)
    requires d > 0 && x * d < y * d
    ensures x < y
  {
  }

  lemma NumeratorOfTotal(total: int, u: int)
    requires total != 0
    ensures Numerator(total * u, total) == u * Magnitude(total)
  {
    if total < 0 {
      assert -(total * u) == (-total) * u;
    }
  }

  /** One unit and two equally weighted BT levels: each share of 1/2 rounds up
      to 1, so the unit's single question becomes two. */
  lemma SplitOvershoots()
    ensures UnitSplit([Entry(1, 1), Entry(2, 1)], 1) == [Entry(1, 1), Entry(2, 1)]
  {
    assert Sum([Entry(1, 1), Entry(2, 1)]) == 2;
  }

  /** With no negative BT count, no share is negative. */
  lemma ShareNonNegative(btCount: int, unitCount: int, total: int)
    requires btCount >= 0 && unitCount >= 0 && total > 0
    ensures Share(btCount, unitCount, total) >= 0
  {
    assert btCount * unitCount >= 0;
    ShareBounds(btCount, unitCount, total);
  }

  // ---------------------------------------------------------------------------
  // Buckets and match queries

  /** The request's filters; `unit` is the empty string when it was not given. */
  datatype Filters = Filters(
    subject: string,
    branch: string,
    regulation: string,
    year: string,
    semester: string,
    unit: string)

  /** `parseInt(text)` as the value of an equality condition. */
  function ParsedFilter(text: string): NumberFilter {
    match ParseInt(text)
    case None => EqualToNaN
    case Some(n) => EqualTo(n)
  }

  /** `filters.unit` as a condition: present only when a unit was given. */
  function UnitCondition(unit: string): NumberFilter {
    if unit == "" then AnyNumber else ParsedFilter(unit)
  }

  /** The conditions every query of a request shares, as `getQuestions`
      builds them from the filters: the descriptive fields as given, the
      semester read with `parseInt`, and the request's unit condition. */
  datatype BaseQuery = BaseQuery(
    subjectCode: string,
    branch: string,
    regulation: string,
    year: string,
    semester: NumberFilter,
    unit: NumberFilter)

  /** The filters read once; `getQuestions` repeats the same reading on every
      call, with the same outcome each time. */
  function BaseOf(f: Filters): (r: BaseQuery)
    ensures r.subjectCode == f.subject && r.branch == f.branch && r.regulation == f.regulation && r.year == f.year
    ensures r.semester == if ParseInt(f.semester).Some? then EqualTo(ParseInt(f.semester).value) else EqualToNaN
    ensures f.unit == "" ==> r.unit == AnyNumber
    ensures f.unit != "" ==> r.unit == if ParseInt(f.unit).Some? then EqualTo(ParseInt(f.unit).value) else EqualToNaN
  {
    BaseQuery(f.subject, f.branch, f.regulation, f.year, ParsedFilter(f.semester), UnitCondition(f.unit))
  }

  /** The unit condition of a unit-wise bucket: the bucket's unit replaces the
      request's, and unit 0, being falsy, imposes no condition at all. */
  function BucketUnit(key: int): NumberFilter {
    if key == 0 then AnyNumber else EqualTo(key)
  }

  /** `getQuestions`' match query. */
  function Query(b: BaseQuery, kind: Kind, unit: NumberFilter, btLevel: NumberFilter): MatchQuery {
    MatchQuery(b.subjectCode, b.branch, b.regulation, b.year, b.semester, kind, unit, btLevel)
  }

  /** `count || 100`: the `$sample` size. */
  function SampleSize(count: int): (r: int)
    ensures r != 0
    ensures count > 0 ==> r == count
    ensures count == 0 ==> r == 100
    ensures count < 0 ==> r == count
  {
    if count == 0 then 100 else count
  }

  /** `s.slice(0, n)` for a non-negative `n`. */
  function Take<T>(s: seq<T>, n: int): (r: seq<T>)
    requires n >= 0
    ensures |r| == if |s| <= n then |s| else n
    ensures r == s[..|r|]
  {
    if n < |s| then s[..n] else s
  }

  /** A stored question matches the query of one of a request's buckets
      exactly when it carries the request's subject code, branch, regulation
      and year, its semester is the `parseInt` value of the request's
      semester, its text of the kind is not empty, and it meets the bucket's
      unit and BT-level conditions. */
  lemma QueryMatches(f: Filters, kind: Kind, unit: NumberFilter, btLevel: NumberFilter, q: Question)
    ensures Matches(q, Query(BaseOf(f), kind, unit, btLevel))
            <==> && q.subjectCode == f.subject && q.branch == f.branch
                 && q.regulation == f.regulation && q.year == f.year
                 && ParseInt(f.semester) == Some(q.semester)
                 && QuestionText(q, kind) != ""
                 && Admits(unit, q.unit) && Admits(btLevel, q.btLevel)
  {
  }

  /** One call of `getQuestions` and the number of its results kept. */
  datatype Draw = Draw(query: MatchQuery, size: int, take: int)

  /** The bucket of one BT level: skipped when its count is not positive. */
  function LevelDraw(b: BaseQuery, kind: Kind, unit: NumberFilter, e: Entry): seq<Draw> {
    if e.count <= 0 then []
    else [Draw(Query(b, kind, unit, EqualTo(e.key)), SampleSize(e.count), e.count)]
  }

  /** The buckets of the first `n` BT levels of `m`, in iteration order. */
  function LevelDraws(b: BaseQuery, kind: Kind, unit: NumberFilter, m: CountMap, n: nat): seq<Draw>
    requires n <= |m|
  {
    if n == 0 then []
    else LevelDraws(b, kind, unit, m, n - 1) + LevelDraw(b, kind, unit, m[n - 1])
  }

  /** The split of a unit across BT levels divides by the sum of the BT-level
      counts; this says that sum is never zero when it is used. */
  predicate SplitDefined(c: TypeConfig) {
    (c.useUnitWise && c.useBtLevels && c.btLevelCounts != [] && HasPositive(c.unitCounts))
      ==> Sum(c.btLevelCounts) != 0
  }

  /** `unitBtCounts` of a unit: its count split across the BT levels when BT
      levels are on and the unit's count is positive; nothing otherwise. */
  function UnitShares(c: TypeConfig, e: Entry): CountMap
    requires SplitDefined(c) && c.useUnitWise && e in c.unitCounts
  {
    if c.useBtLevels && e.count > 0 then
      assert HasPositive(c.unitCounts) by {
        var i :| 0 <= i < |c.unitCounts| && c.unitCounts[i] == e;
      }
      UnitSplit(c.btLevelCounts, e.count)
    else []
  }

  /** The shares of every unit, in the order of the units. */
  function Splits(c: TypeConfig): seq<CountMap>
    requires SplitDefined(c) && c.useUnitWise
  {
    seq(|c.unitCounts|, i requires 0 <= i < |c.unitCounts| => UnitShares(c, c.unitCounts[i]))
  }

  /** `splits` holds the shares of every unit. The trigger keeps the shares
      out of sight until a member asks for one unit's shares by name. */
  predicate SplitsOf(c: TypeConfig, splits: seq<CountMap>)
    requires SplitDefined(c) && c.useUnitWise
  {
    && |splits| == |c.unitCounts|
    && forall i {:trigger UnitShares(c, c.unitCounts[i])} :: 0 <= i < |splits| ==> splits[i] == UnitShares(c, c.unitCounts[i])
  }

  lemma SplitsOfSplits(c: TypeConfig)
    requires SplitDefined(c) && c.useUnitWise
    ensures SplitsOf(c, Splits(c))
  {
    forall i | 0 <= i < |c.unitCounts| ensures Splits(c)[i] == UnitShares(c, c.unitCounts[i]) {
    }
  }

  /** The buckets of one unit in unit-wise mode, given the unit's shares: none
      for a count that is not positive, one per positive share with BT levels
      on, and one for the whole unit otherwise. */
  function UnitDraw(b: BaseQuery, useBtLevels: bool, kind: Kind, e: Entry, split: CountMap): seq<Draw> {
    if e.count <= 0 then []
    else if useBtLevels then LevelDraws(b, kind, BucketUnit(e.key), split, |split|)
    else [Draw(Query(b, kind, BucketUnit(e.key), AnyNumber), SampleSize(e.count), e.count)]
  }

  /** The buckets of the first `n` units in unit-wise mode. */
  function UnitDraws(b: BaseQuery, c: TypeConfig, kind: Kind, splits: seq<CountMap>, n: nat): seq<Draw>
    requires |splits| == |c.unitCounts| && n <= |c.unitCounts|
  {
    if n == 0 then []
    else UnitDraws(b, c, kind, splits, n - 1) + UnitDraw(b, c.useBtLevels, kind, c.unitCounts[n - 1], splits[n - 1])
  }

  /** Every `getQuestions` call `getRandomQuestionsWithConstraints` makes, in order. */
  function Draws(b: BaseQuery, c: TypeConfig, kind: Kind): seq<Draw>
    requires SplitDefined(c)
  {
    if c.useUnitWise then UnitDraws(b, c, kind, Splits(c), |c.unitCounts|)
    else if c.useBtLevels then LevelDraws(b, kind, b.unit, c.btLevelCounts, |c.btLevelCounts|)
    else [Draw(Query(b, kind, b.unit, AnyNumber), SampleSize(c.totalCount), c.totalCount)]
  }

  /** The number of questions the buckets ask for. */
  function Requested(ds: seq<Draw>): int {
    if ds == [] then 0 else Requested(ds[..|ds| - 1]) + ds[|ds| - 1].take
  }

  lemma {:induction false} RequestedAppend(a: seq<Draw>, b: seq<Draw>)
    ensures Requested(a + b) == Requested(a) + Requested(b)
  {
    if b != [] {
      assert (a + b)[..|a + b| - 1] == a + b[..|b| - 1];
      RequestedAppend(a, b[..|b| - 1]);
    } else {
      assert a + b == a;
    }
  }

  /** The BT-level buckets ask for the positive counts. */
  lemma {:induction false} LevelDrawsRequested(b: BaseQuery, kind: Kind, unit: NumberFilter, m: CountMap, n: nat)
    requires n <= |m|
    ensures Requested(LevelDraws(b, kind, unit, m, n)) == PositiveSum(m[..n])
  {
    if n > 0 {
      LevelDrawsRequested(b, kind, unit, m, n - 1);
      RequestedAppend(LevelDraws(b, kind, unit, m, n - 1), LevelDraw(b, kind, unit, m[n - 1]));
      PositiveSumPrefix(m, n);
    }
  }

  /** Every BT-level bucket comes from a positive entry of `m` and carries its
      unit condition, its level and its count. */
  lemma {:induction false} LevelDrawsShape(b: BaseQuery, kind: Kind, unit: NumberFilter, m: CountMap, n: nat, d: Draw)
    requires n <= |m| && d in LevelDraws(b, kind, unit, m, n)
    ensures exists e :: e in m && e.count > 0 && d == Draw(Query(b, kind, unit, EqualTo(e.key)), e.count, e.count)
  {
    if d !in LevelDraws(b, kind, unit, m, n - 1) {
      assert d in LevelDraw(b, kind, unit, m[n - 1]);
      assert m[n - 1] in m;
    } else {
      LevelDrawsShape(b, kind, unit, m, n - 1, d);
    }
  }

  /** What every `getQuestions` call asks for: the request's descriptive
      fields and the question kind always; in total mode the request's unit (if
      any), in unit-wise mode that of a unit with a positive count instead; a
      BT level exactly when BT levels are on; and a sample of the bucket's count,
      or of 100 for a count of 0. Only total mode without BT levels can issue a
      bucket whose count is not positive. */
  lemma DrawShape(b: BaseQuery, c: TypeConfig, kind: Kind, d: Draw)
    requires SplitDefined(c) && d in Draws(b, c, kind)
    ensures d.query.subjectCode == b.subjectCode && d.query.branch == b.branch
    ensures d.query.regulation == b.regulation && d.query.year == b.year
    ensures d.query.semester == b.semester && d.query.kind == kind
    ensures d.size == SampleSize(d.take)
    ensures c.useUnitWise || c.useBtLevels ==> d.take > 0
    ensures !c.useUnitWise ==> d.query.unit == b.unit
    ensures c.useUnitWise ==> exists e :: e in c.unitCounts && e.count > 0 && d.query.unit == BucketUnit(e.key)
    ensures c.useBtLevels ==> exists e :: e in c.btLevelCounts && d.query.btLevel == EqualTo(e.key)
    ensures !c.useBtLevels ==> d.query.btLevel == AnyNumber
  {
    if c.useUnitWise {
      SplitsKeyed(c);
      UnitDrawsShape(b, c, kind, Splits(c), |c.unitCounts|, d);
    } else if c.useBtLevels {
      LevelDrawsShape(b, kind, b.unit, c.btLevelCounts, |c.btLevelCounts|, d);
    }
  }

  /** The shares of a unit carry the keys of `bt`, position by position. */
  predicate KeysFrom(bt: CountMap, split: CountMap) {
    |split| <= |bt| && forall j :: 0 <= j < |split| ==> split[j].key == bt[j].key
  }

  predicate AllKeysFrom(bt: CountMap, splits: seq<CountMap>) {
    forall i :: 0 <= i < |splits| ==> KeysFrom(bt, splits[i])
  }

  /** Every unit's shares are BT levels of the configuration. */
  lemma SplitsKeyed(c: TypeConfig)
    requires SplitDefined(c) && c.useUnitWise
    ensures AllKeysFrom(c.btLevelCounts, Splits(c))
  {
    forall i | 0 <= i < |c.unitCounts| ensures KeysFrom(c.btLevelCounts, Splits(c)[i]) {
      assert c.unitCounts[i] in c.unitCounts;
    }
  }

  lemma {:induction false} UnitDrawsShape(b: BaseQuery, c: TypeConfig, kind: Kind, splits: seq<CountMap>, n: nat, d: Draw)
    requires |splits| == |c.unitCounts| && n <= |c.unitCounts| && AllKeysFrom(c.btLevelCounts, splits)
    requires d in UnitDraws(b, c, kind, splits, n)
    ensures d.query == Query(b, kind, d.query.unit, d.query.btLevel)
    ensures d.size == d.take && d.take > 0
    ensures exists e :: e in c.unitCounts && e.count > 0 && d.query.unit == BucketUnit(e.key)
    ensures c.useBtLevels ==> exists e :: e in c.btLevelCounts && d.query.btLevel == EqualTo(e.key)
    ensures !c.useBtLevels ==> d.query.btLevel == AnyNumber
  {
    var u := c.unitCounts[n - 1];
    if d in UnitDraws(b, c, kind, splits, n - 1) {
      UnitDrawsShape(b, c, kind, splits, n - 1, d);
    } else {
      assert d in UnitDraw(b, c.useBtLevels, kind, u, splits[n - 1]);
      assert KeysFrom(c.btLevelCounts, splits[n - 1]);
      UnitDrawShape(b, c, kind, u, splits[n - 1], d);
      assert u in c.unitCounts;
    }
  }

  /** The same for the buckets of one unit. */
  lemma UnitDrawShape(b: BaseQuery, c: TypeConfig, kind: Kind, u: Entry, split: CountMap, d: Draw)
    requires KeysFrom(c.btLevelCounts, split) && d in UnitDraw(b, c.useBtLevels, kind, u, split)
    ensures d.query == Query(b, kind, d.query.unit, d.query.btLevel)
    ensures d.size == d.take && d.take > 0
    ensures u.count > 0 && d.query.unit == BucketUnit(u.key)
    ensures c.useBtLevels ==> exists e :: e in c.btLevelCounts && d.query.btLevel == EqualTo(e.key)
    ensures !c.useBtLevels ==> d.query.btLevel == AnyNumber
  {
    if c.useBtLevels {
      LevelDrawsShape(b, kind, BucketUnit(u.key), split, |split|, d);
      var e :| e in split && e.count > 0 && d == Draw(Query(b, kind, BucketUnit(u.key), EqualTo(e.key)), e.count, e.count);
      var i :| 0 <= i < |split| && split[i] == e;
      assert c.btLevelCounts[i] in c.btLevelCounts;
    }
  }

  // ---------------------------------------------------------------------------
  // The selection

  /** What one bucket may contribute: at most its count of documents of the
      collection that match its query. */
  predicate Picked(records: seq<Question>, d: Draw, p: seq<Question>) {
    |p| <= d.take && forall q :: q in p ==> q in records && Matches(q, d.query)
  }

  /** One contribution per bucket, each within what its bucket allows. */
  predicate Selection(records: seq<Question>, ds: seq<Draw>, picks: seq<seq<Question>>) {
    |picks| == |ds| && forall i :: 0 <= i < |ds| ==> Picked(records, ds[i], picks[i])
  }

  /** The contributions appended one after the other. */
  function Concat(picks: seq<seq<Question>>): seq<Question> {
    if picks == [] then [] else Concat(picks[..|picks| - 1]) + picks[|picks| - 1]
  }

  lemma SelectionExtend(records: seq<Question>, ds: seq<Draw>, picks: seq<seq<Question>>, d: Draw, p: seq<Question>)
    requires Selection(records, ds, picks) && Picked(records, d, p)
    ensures Selection(records, ds + [d], picks + [p])
    ensures Concat(picks + [p]) == Concat(picks) + p
  {
    assert (picks + [p])[..|picks|] == picks;
  }

  /** Two selections one after the other form the selection of both bucket
      lists, and their questions follow one another. */
  lemma {:induction false} SelectionAppend(records: seq<Question>, ds: seq<Draw>, picks: seq<seq<Question>>,
                                           es: seq<Draw>, more: seq<seq<Question>>)
    requires Selection(records, ds, picks) && Selection(records, es, more)
    ensures Selection(records, ds + es, picks + more)
    ensures Concat(picks + more) == Concat(picks) + Concat(more)
  {
    if more != [] {
      var n := |more|;
      assert Selection(records, es[..n - 1], more[..n - 1]);
      SelectionAppend(records, ds, picks, es[..n - 1], more[..n - 1]);
      assert (picks + more)[..|picks + more| - 1] == picks + more[..n - 1];
    } else {
      assert picks + more == picks;
      assert ds + es == ds;
    }
  }

  /** Cutting a sample of matching documents to a bucket's count leaves a
      contribution the bucket allows. */
  lemma TakePicked(records: seq<Question>, d: Draw, available: seq<Question>, taken: seq<Question>)
    requires d.take >= 0 && taken == Take(available, d.take)
    requires forall q :: q in available ==> q in records && Matches(q, d.query)
    ensures Picked(records, d, taken)
  {
    forall q | q in taken ensures q in available {
      var i :| 0 <= i < |taken| && taken[i] == q;
      assert available[i] == q;
    }
  }

  /** The selection never holds more questions than the buckets ask for, and
      each of them is a document of the collection matching its bucket's query. */
  lemma {:induction false} SelectionBound(records: seq<Question>, ds: seq<Draw>, picks: seq<seq<Question>>)
    requires Selection(records, ds, picks)
    ensures |Concat(picks)| <= Requested(ds)
    ensures forall q :: q in Concat(picks) ==> q in records && exists d :: d in ds && Matches(q, d.query)
  {
    if ds != [] {
      var n := |ds|;
      assert Selection(records, ds[..n - 1], picks[..n - 1]);
      SelectionBound(records, ds[..n - 1], picks[..n - 1]);
      assert Picked(records, ds[n - 1], picks[n - 1]);
      forall q | q in Concat(picks) ensures q in records && exists d :: d in ds && Matches(q, d.query) {
        if q in Concat(picks[..n - 1]) {
          var d :| d in ds[..n - 1] && Matches(q, d.query);
          assert d in ds;
        } else {
          assert q in picks[n - 1];
          assert ds[n - 1] in ds;
        }
      }
    }
  }

  /** The loop over the BT levels of `m` (the BT-level buckets of the
      request, or the shares of one unit): each level with a positive count is
      sampled with its count as size, and at most that many results are kept. */
  method SelectLevels(store: Store, b: BaseQuery, kind: Kind, unit: NumberFilter, m: CountMap)
    returns (picks: seq<seq<Question>>, questions: seq<Question>)
    ensures Selection(store.records, LevelDraws(b, kind, unit, m, |m|), picks)
    ensures questions == Concat(picks)
  {
    picks, questions := [], [];
    var k := 0;
    while k < |m|
      invariant 0 <= k <= |m|
      invariant Selection(store.records, LevelDraws(b, kind, unit, m, k), picks)
      invariant questions == Concat(picks)
    {
      picks, questions := SelectLevel(store, b, kind, unit, m, k, picks, questions);
      k := k + 1;
    }
  }

  /** The buckets of one more BT level are those of one fewer and its own. */
  lemma LevelDrawsNext(b: BaseQuery, kind: Kind, unit: NumberFilter, m: CountMap, k: nat)
    requires k < |m|
    ensures LevelDraws(b, kind, unit, m, k + 1) == LevelDraws(b, kind, unit, m, k) + LevelDraw(b, kind, unit, m[k])
  {
  }

  /** One iteration of the loop over the BT levels: a level whose count is
      not positive is skipped (`continue`). */
  method SelectLevel(store: Store, b: BaseQuery, kind: Kind, unit: NumberFilter, m: CountMap, k: nat,
                     picks0: seq<seq<Question>>, questions0: seq<Question>)
    returns (picks: seq<seq<Question>>, questions: seq<Question>)
    requires k < |m|
    requires Selection(store.records, LevelDraws(b, kind, unit, m, k), picks0) && questions0 == Concat(picks0)
    ensures Selection(store.records, LevelDraws(b, kind, unit, m, k + 1), picks)
    ensures questions == Concat(picks)
  {
    picks, questions := picks0, questions0;
    LevelDrawsNext(b, kind, unit, m, k);
    ghost var done := LevelDraws(b, kind, unit, m, k);
    var level, count := m[k].key, m[k].count;
    if count <= 0 {
      assert done + LevelDraw(b, kind, unit, m[k]) == done;
      return;
    }
    var bucket := Draw(Query(b, kind, unit, EqualTo(level)), SampleSize(count), count);
    var available := store.Sample(bucket.query, bucket.size);
    var taken := Take(available.value, count);
    TakePicked(store.records, bucket, available.value, taken);
    SelectionExtend(store.records, done, picks, bucket, taken);
    picks := picks + [taken];
    questions := questions + taken;
  }

  /** One iteration of the loop over the units in unit-wise mode, for the
      unit at position `i`: a unit with a positive count is either split across
      the BT levels (`unitBtCounts`, filled in a loop) or sampled as one bucket. */
  method SelectUnit(store: Store, b: BaseQuery, c: TypeConfig, kind: Kind, ghost splits: seq<CountMap>, i: nat,
                    ghost done: seq<Draw>, picks0: seq<seq<Question>>, questions0: seq<Question>)
    returns (picks: seq<seq<Question>>, questions: seq<Question>)
    requires SplitDefined(c) && c.useUnitWise && SplitsOf(c, splits) && i < |c.unitCounts|
    requires Selection(store.records, done, picks0) && questions0 == Concat(picks0)
    ensures Selection(store.records, done + UnitDraw(b, c.useBtLevels, kind, c.unitCounts[i], splits[i]), picks)
    ensures questions == Concat(picks)
  {
    picks, questions := picks0, questions0;
    var entry := c.unitCounts[i];
    var totalUnitCount := entry.count;
    if totalUnitCount <= 0 {
      assert done + UnitDraw(b, c.useBtLevels, kind, entry, splits[i]) == done;
      return;
    }
    var unitFilter := BucketUnit(entry.key);
    if c.useBtLevels {
      var btLevelCounts := c.btLevelCounts;
      var totalBtCount := Sum(btLevelCounts);
      assert HasPositive(c.unitCounts);
      var unitBtCounts: CountMap := [];
      var j := 0;
      while j < |btLevelCounts|
        invariant 0 <= j <= |btLevelCounts|
        invariant unitBtCounts == UnitSplit(btLevelCounts, totalUnitCount)[..j]
      {
        unitBtCounts := unitBtCounts
          + [Entry(btLevelCounts[j].key, Share(btLevelCounts[j].count, totalUnitCount, totalBtCount))];
        j := j + 1;
      }
      assert unitBtCounts == splits[i] by {
        assert splits[i] == UnitShares(c, entry);
      }
      var levelPicks, levelQuestions := SelectLevels(store, b, kind, unitFilter, unitBtCounts);
      SelectionAppend(store.records, done, picks, LevelDraws(b, kind, unitFilter, unitBtCounts, |unitBtCounts|), levelPicks);
      picks, questions := picks + levelPicks, questions + levelQuestions;
    } else {
      var available := store.Sample(Query(b, kind, unitFilter, AnyNumber), SampleSize(totalUnitCount));
      var taken := Take(available.value, totalUnitCount);
      var bucket := Draw(Query(b, kind, unitFilter, AnyNumber), SampleSize(totalUnitCount), totalUnitCount);
      assert UnitDraw(b, c.useBtLevels, kind, entry, splits[i]) == [bucket];
      SelectionExtend(store.records, done, picks, bucket, taken);
      picks := picks + [taken];
      questions := questions + taken;
    }
  }

  lemma UnitDrawsNext(b: BaseQuery, c: TypeConfig, kind: Kind, splits: seq<CountMap>, i: nat)
    requires |splits| == |c.unitCounts| && i < |c.unitCounts|
    ensures UnitDraws(b, c, kind, splits, i + 1)
            == UnitDraws(b, c, kind, splits, i) + UnitDraw(b, c.useBtLevels, kind, c.unitCounts[i], splits[i])
  {
  }

  /** The loop over the units in unit-wise mode; `splits` holds the shares
      each unit's iteration computes. */
  method SelectUnits(store: Store, b: BaseQuery, c: TypeConfig, kind: Kind, ghost splits: seq<CountMap>)
    returns (picks: seq<seq<Question>>, questions: seq<Question>)
    requires SplitDefined(c) && c.useUnitWise && SplitsOf(c, splits)
    ensures Selection(store.records, UnitDraws(b, c, kind, splits, |c.unitCounts|), picks)
    ensures questions == Concat(picks)
  {
    picks, questions := [], [];
    var i := 0;
    ghost var drawn: seq<Draw> := [];
    while i < |c.unitCounts|
      invariant 0 <= i <= |c.unitCounts|
      invariant drawn == UnitDraws(b, c, kind, splits, i)
      invariant Selection(store.records, drawn, picks)
      invariant questions == Concat(picks)
    {
      UnitDrawsNext(b, c, kind, splits, i);
      picks, questions := SelectUnit(store, b, c, kind, splits, i, drawn, picks, questions);
      drawn := drawn + UnitDraw(b, c.useBtLevels, kind, c.unitCounts[i], splits[i]);
      i := i + 1;
    }
  }

  /** `getRandomQuestionsWithConstraints(filters, config, type)`: one query per
      bucket with a positive count (or the single total-mode query), each
      result cut to the bucket's count and appended. Nothing makes up for a
      bucket that comes back short. `None` when the database refuses the sample
      size, which only a negative total count can cause. */
  method SelectQuestions(store: Store, b: BaseQuery, c: TypeConfig, kind: Kind)
    returns (r: Option<seq<Question>>, picks: seq<seq<Question>>)
    requires SplitDefined(c)
    ensures r.None? <==> !c.useUnitWise && !c.useBtLevels && c.totalCount < 0
    ensures r.Some? ==> Selection(store.records, Draws(b, c, kind), picks) && r.value == Concat(picks)
  {
    if c.useUnitWise {
      var questions;
      SplitsOfSplits(c);
      picks, questions := SelectUnits(store, b, c, kind, Splits(c));
      r := Some(questions);
    } else if c.useBtLevels {
      var questions;
      picks, questions := SelectLevels(store, b, kind, b.unit, c.btLevelCounts);
      r := Some(questions);
    } else {
      var available := store.Sample(Query(b, kind, b.unit, AnyNumber), SampleSize(c.totalCount));
      if available.None? {
        return None, [];
      }
      var taken := Take(available.value, c.totalCount);
      SelectionExtend(store.records, [], [], Draws(b, c, kind)[0], taken);
      picks := [taken];
      r := Some(taken);
    }
  }

  // ---------------------------------------------------------------------------
  // How many questions each mode asks for

  /** A configuration that passed validation, with no negative count (the form
      only sends positive ones), never divides by zero when splitting a unit. */
  lemma ValidatedSplitDefined(c: TypeConfig, kind: Kind)
    requires CountsNonNegative(c) && ValidateConfig(c, kind).None?
    ensures SplitDefined(c)
  {
    if c.useUnitWise && c.useBtLevels && c.btLevelCounts != [] && HasPositive(c.unitCounts) {
      PositiveSumOfNonNegative(c.unitCounts);
    }
  }

  /** In total mode the buckets of a validated configuration ask for exactly
      the total count, whether or not BT levels are on. */
  lemma TotalModeRequested(b: BaseQuery, c: TypeConfig, kind: Kind)
    requires !c.useUnitWise && CountsNonNegative(c) && ValidateConfig(c, kind).None?
    ensures Requested(Draws(b, c, kind)) == c.totalCount
  {
    if c.useBtLevels {
      LevelDrawsRequested(b, kind, b.unit, c.btLevelCounts, |c.btLevelCounts|);
      assert c.btLevelCounts[..|c.btLevelCounts|] == c.btLevelCounts;
      PositiveSumOfNonNegative(c.btLevelCounts);
    } else {
      assert Draws(b, c, kind)[..0] == [];
    }
  }

  /** In unit-wise mode without BT levels the buckets ask for the positive unit counts. */
  lemma UnitWiseRequested(b: BaseQuery, c: TypeConfig, kind: Kind)
    requires c.useUnitWise && !c.useBtLevels
    ensures Requested(Draws(b, c, kind)) == PositiveSum(c.unitCounts)
  {
    UnitDrawsRequested(b, c, kind, Splits(c), |c.unitCounts|);
    assert c.unitCounts[..|c.unitCounts|] == c.unitCounts;
  }

  lemma {:induction false} UnitDrawsRequested(b: BaseQuery, c: TypeConfig, kind: Kind, splits: seq<CountMap>, n: nat)
    requires !c.useBtLevels && |splits| == |c.unitCounts| && n <= |c.unitCounts|
    ensures Requested(UnitDraws(b, c, kind, splits, n)) == PositiveSum(c.unitCounts[..n])
  {
    if n > 0 {
      var e := c.unitCounts[n - 1];
      UnitDrawsRequested(b, c, kind, splits, n - 1);
      RequestedAppend(UnitDraws(b, c, kind, splits, n - 1), UnitDraw(b, false, kind, e, splits[n - 1]));
      UnitDrawRequested(b, kind, e, splits[n - 1]);
      PositiveSumPrefix(c.unitCounts, n);
    }
  }

  /** Without BT levels a unit's bucket asks for the unit's count, when positive. */
  lemma UnitDrawRequested(b: BaseQuery, kind: Kind, e: Entry, split: CountMap)
    ensures Requested(UnitDraw(b, false, kind, e, split)) == if e.count > 0 then e.count else 0
  {
    if e.count > 0 {
      var one := UnitDraw(b, false, kind, e, split);
      assert one[..0] == [];
    }
  }

  /** Extending a prefix by one entry adds its count, when positive. */
  lemma PositiveSumPrefix(m: CountMap, n: nat)
    requires 0 < n <= |m|
    ensures PositiveSum(m[..n]) == PositiveSum(m[..n - 1]) + if m[n - 1].count > 0 then m[n - 1].count else 0
  {
    assert m[..n][..n - 1] == m[..n - 1];
  }

  /** In unit-wise mode with BT levels a validated configuration asks for the
      sum of the unit counts give or take half the number of BT levels per
      unit, because every share is rounded on its own. */
  lemma UnitWiseBtRequested(b: BaseQuery, c: TypeConfig, kind: Kind)
    requires c.useUnitWise && c.useBtLevels && CountsNonNegative(c) && ValidateConfig(c, kind).None?
    ensures SplitDefined(c)
    ensures var n, spread := Sum(c.unitCounts), |c.btLevelCounts| * |c.unitCounts|;
            2 * n - spread <= 2 * Requested(Draws(b, c, kind)) <= 2 * n + spread
  {
    ValidatedSplitDefined(c, kind);
    SplitsNear(c);
    UnitDrawsBtRequested(b, c, kind, Splits(c), |c.unitCounts|);
    assert c.unitCounts[..|c.unitCounts|] == c.unitCounts;
    PositiveSumOfNonNegative(c.unitCounts);
  }

  /** Each unit with a positive count has shares adding up to its count, give
      or take half the number of BT levels `levels`. */
  predicate NearCounts(units: CountMap, levels: int, splits: seq<CountMap>) {
    forall i :: 0 <= i < |units| && i < |splits| && units[i].count > 0 ==>
      2 * units[i].count - levels <= 2 * PositiveSum(splits[i]) <= 2 * units[i].count + levels
  }

  /** The shares of a validated configuration are near the unit counts. */
  lemma SplitsNear(c: TypeConfig)
    requires c.useUnitWise && c.useBtLevels && CountsNonNegative(c) && SplitDefined(c)
    requires Sum(c.unitCounts) == Sum(c.btLevelCounts)
    ensures NearCounts(c.unitCounts, |c.btLevelCounts|, Splits(c))
  {
    forall i | 0 <= i < |c.unitCounts| && c.unitCounts[i].count > 0
      ensures var u := c.unitCounts[i].count;
              2 * u - |c.btLevelCounts| <= 2 * PositiveSum(Splits(c)[i]) <= 2 * u + |c.btLevelCounts|
    {
      var e := c.unitCounts[i];
      assert e in c.unitCounts;
      assert HasPositive(c.unitCounts);
      PositiveSumOfNonNegative(c.unitCounts);
      UnitSharesNear(c.btLevelCounts, e.count);
    }
  }

  /** One unit's shares, for a positive total of non-negative BT counts. */
  lemma UnitSharesNear(bt: CountMap, unitCount: int)
    requires AllNonNegative(bt) && Sum(bt) > 0 && unitCount > 0
    ensures 2 * unitCount - |bt| <= 2 * PositiveSum(UnitSplit(bt, unitCount)) <= 2 * unitCount + |bt|
  {
    SplitNonNegative(bt, unitCount);
    PositiveSumOfNonNegative(UnitSplit(bt, unitCount));
    UnitSplitSum(bt, unitCount);
  }

  lemma {:induction false} UnitDrawsBtRequested(b: BaseQuery, c: TypeConfig, kind: Kind, splits: seq<CountMap>, n: nat)
    requires c.useBtLevels && |splits| == |c.unitCounts| && n <= |c.unitCounts|
    requires NearCounts(c.unitCounts, |c.btLevelCounts|, splits)
    ensures var p, spread := PositiveSum(c.unitCounts[..n]), |c.btLevelCounts| * n;
            2 * p - spread <= 2 * Requested(UnitDraws(b, c, kind, splits, n)) <= 2 * p + spread
  {
    if n > 0 {
      var e := c.unitCounts[n - 1];
      var levels := |c.btLevelCounts|;
      UnitDrawsBtRequested(b, c, kind, splits, n - 1);
      UnitDrawBtRequested(b, kind, e, splits[n - 1], levels);
      RequestedAppend(UnitDraws(b, c, kind, splits, n - 1), UnitDraw(b, true, kind, e, splits[n - 1]));
      PositiveSumPrefix(c.unitCounts, n);
      var before, spread := PositiveSum(c.unitCounts[..n - 1]), levels * (n - 1);
      var u := if e.count > 0 then e.count else 0;
      assert PositiveSum(c.unitCounts[..n]) == before + u;
      assert Requested(UnitDraws(b, c, kind, splits, n))
          == Requested(UnitDraws(b, c, kind, splits, n - 1)) + Requested(UnitDraw(b, true, kind, e, splits[n - 1]));
      Distribute(n - 1, 1, levels);
      assert levels * n == spread + levels;
    }
  }

  /** One unit's buckets ask for the unit's count, give or take half the
      number of BT levels, when its shares do. */
  lemma UnitDrawBtRequested(b: BaseQuery, kind: Kind, e: Entry, split: CountMap, levels: nat)
    requires e.count > 0 ==> 2 * e.count - levels <= 2 * PositiveSum(split) <= 2 * e.count + levels
    ensures var u := if e.count > 0 then e.count else 0;
            2 * u - levels <= 2 * Requested(UnitDraw(b, true, kind, e, split)) <= 2 * u + levels
  {
    if e.count > 0 {
      LevelDrawsRequested(b, kind, BucketUnit(e.key), split, |split|);
      assert split[..|split|] == split;
    }
  }

  /** With no negative BT count and a non-negative unit count, every share is non-negative. */
  lemma SplitNonNegative(bt: CountMap, unitCount: int)
    requires AllNonNegative(bt) && Sum(bt) > 0 && unitCount >= 0
    ensures AllNonNegative(UnitSplit(bt, unitCount))
  {
    forall i | 0 <= i < |bt| ensures UnitSplit(bt, unitCount)[i].count >= 0 {
      ShareNonNegative(bt[i].count, unitCount, Sum(bt));
    }
  }

  // ---------------------------------------------------------------------------
  // generatePaper

  /** The request body; a text field is the empty string when absent. */
  datatype PaperRequest = PaperRequest(
    subject: string,
    branch: string,
    regulation: string,
    year: string,
    semester: string,
    unit: string,
    config: Option<PaperConfig>)

  const RequiredFields: seq<string> := ["subject", "branch", "regulation", "year", "semester", "config"]

  /** `!req.body[RequiredFields[i]]`. */
  predicate FieldMissing(req: PaperRequest, i: nat) {
    match i
    case 0 => req.subject == ""
    case 1 => req.branch == ""
    case 2 => req.regulation == ""
    case 3 => req.year == ""
    case 4 => req.semester == ""
    case _ => req.config.None?
  }

  /** The positions of the missing fields among the first `n` required ones. */
  function MissingAmong(req: PaperRequest, n: nat): (r: seq<nat>)
    ensures forall i: nat :: i in r <==> i < n && FieldMissing(req, i)
    ensures forall k :: 0 <= k < |r| ==> r[k] < n
    ensures forall k, l :: 0 <= k < l < |r| ==> r[k] < r[l]
  {
    if n == 0 then []
    else MissingAmong(req, n - 1) + (if FieldMissing(req, n - 1) then [n - 1] else [])
  }

  /** The positions, in `RequiredFields`, of exactly the missing required
      fields, ascending (`unit` is optional). */
  function MissingPositions(req: PaperRequest): (r: seq<nat>)
    ensures forall i: nat :: i in r <==> i < |RequiredFields| && FieldMissing(req, i)
    ensures forall k, l :: 0 <= k < l < |r| ==> r[k] < r[l]
    ensures forall k :: 0 <= k < |r| ==> r[k] < |RequiredFields|
    ensures r == [] ==> req.config.Some?
  {
    var r := MissingAmong(req, |RequiredFields|);
    assert req.config.None? ==> 5 in r;
    r
  }

  /** No position is reported exactly when every required field is given. */
  lemma NothingMissing(req: PaperRequest)
    ensures MissingPositions(req) == [] <==> (req.subject != "" && req.branch != "" && req.regulation != ""
                                             && req.year != "" && req.semester != "" && req.config.Some?)
  {
    var r := MissingPositions(req);
    if r != [] {
      assert r[0] in r;
      assert FieldMissing(req, r[0]);
    } else {
      assert !(0 in r) && !(1 in r) && !(2 in r);
      assert !(3 in r) && !(4 in r) && !(5 in r);
    }
  }

  /** `requiredFields.filter((field) => !req.body[field])`: the names of the
      missing required fields, in the fixed order. */
  function MissingFields(req: PaperRequest): (r: seq<string>)
    ensures |r| == |MissingPositions(req)|
    ensures r == [] ==> req.config.Some?
    ensures forall k :: 0 <= k < |r| ==> r[k] == RequiredFields[MissingPositions(req)[k]]
  {
    var positions := MissingPositions(req);
    seq(|positions|, k requires 0 <= k < |positions| => RequiredFields[positions[k]])
  }

  /** `parts.join(sep)`. */
  function Join(parts: seq<string>, sep: string): string {
    if |parts| == 0 then ""
    else if |parts| == 1 then parts[0]
    else Join(parts[..|parts| - 1], sep) + sep + parts[|parts| - 1]
  }

  /** The joined text holds every part once and one separator between
      neighbours: its length is theirs together. */
  lemma {:induction false} JoinLength(parts: seq<string>, sep: string)
    ensures |Join(parts, sep)| == TotalLength(parts) + (if parts == [] then 0 else (|parts| - 1) * |sep|)
  {
    if |parts| > 1 {
      var init := parts[..|parts| - 1];
      JoinLength(init, sep);
      TotalLengthSnoc(init, parts[|parts| - 1]);
      assert parts == init + [parts[|parts| - 1]];
    }
  }

  /** The sum of the lengths of the parts. */
  function TotalLength(parts: seq<string>): nat {
    if parts == [] then 0 else |parts[0]| + TotalLength(parts[1..])
  }

  lemma {:induction false} TotalLengthSnoc(parts: seq<string>, p: string)
    ensures TotalLength(parts + [p]) == TotalLength(parts) + |p|
  {
    if parts != [] {
      assert (parts + [p])[1..] == parts[1..] + [p];
      TotalLengthSnoc(parts[1..], p);
    }
  }

  /** Joining starts with the first part and ends with the last. */
  lemma {:induction false} JoinEnds(parts: seq<string>, sep: string)
    requires parts != []
    ensures var j := Join(parts, sep);
            |parts[0]| <= |j| && j[..|parts[0]|] == parts[0]
            && |parts[|parts| - 1]| <= |j| && j[|j| - |parts[|parts| - 1]|..] == parts[|parts| - 1]
  {
    if |parts| > 1 {
      var init := parts[..|parts| - 1];
      JoinEnds(init, sep);
      assert init[0] == parts[0];
    }
  }

  /** One numbered line of the paper. */
  datatype AnswerLine = AnswerLine(number: int, question: string, btLevel: int, unit: int)

  /** `answers.map((q, index) => ({ number: index + 1, question: ..., btLevel, unit }))`. */
  function NumberAnswers(qs: seq<Question>, kind: Kind): seq<AnswerLine> {
    seq(|qs|, i requires 0 <= i < |qs| => AnswerLine(i + 1, QuestionText(qs[i], kind), qs[i].btLevel, qs[i].unit))
  }

  datatype Metadata = Metadata(
    subjectCode: string,
    subject: string,
    branch: string,
    regulation: string,
    year: string,
    semester: string,
    unit: string,
    totalQuestions: int)

  datatype Paper = Paper(metadata: Metadata, shortAnswers: seq<AnswerLine>, longAnswers: seq<AnswerLine>)

  /** The handler's answers: the paper; status 400; status 500 with a message;
      status 500 with the database's own message (not modelled). */
  datatype Response =
    | Generated(paper: Paper)
    | BadRequest(error: string)
    | ServerError(error: string)
    | DatabaseError

  const SubjectNotFound: string := "Subject not found"

  function MissingFieldsMessage(missing: seq<string>): string {
    "Missing required fields: " + Join(missing, ", ")
  }

  /** `{ subject, branch, regulation, year, semester }`, plus `unit` when given. */
  function RequestFilters(req: PaperRequest): Filters {
    Filters(req.subject, req.branch, req.regulation, req.year, req.semester, req.unit)
  }

  /** Total mode without BT levels and a negative total: the one sample size
      the database refuses. */
  predicate NegativeSample(c: TypeConfig) {
    !c.useUnitWise && !c.useBtLevels && c.totalCount < 0
  }

  /** `lines` numbers a selection made from the buckets `ds`. */
  ghost predicate AnswersFrom(records: seq<Question>, ds: seq<Draw>, kind: Kind, lines: seq<AnswerLine>) {
    exists picks :: Selection(records, ds, picks) && lines == NumberAnswers(Concat(picks), kind)
  }

  /** What a generated paper is made of: the request's details, the subject's
      name from a stored question of that subject, and for each kind the
      numbered selection from that kind's buckets. */
  ghost predicate PaperFrom(records: seq<Question>, req: PaperRequest, paper: Paper) {
    && req.config.Some?
    && SplitDefined(req.config.value.short)
    && SplitDefined(req.config.value.long)
    && AnswersFrom(records, Draws(BaseOf(RequestFilters(req)), req.config.value.short, Short), Short, paper.shortAnswers)
    && AnswersFrom(records, Draws(BaseOf(RequestFilters(req)), req.config.value.long, Long), Long, paper.longAnswers)
    && paper.metadata == Metadata(req.subject, paper.metadata.subject, req.branch, req.regulation, req.year,
                                  req.semester, req.unit, |paper.shortAnswers| + |paper.longAnswers|)
    && exists q :: q in records && q.subjectCode == req.subject && q.subject == paper.metadata.subject
  }

  /** Numbered answers run 1..n, each holds a non-empty question text, and
      there are no more of them than the buckets ask for. */
  lemma AnswersFromBound(records: seq<Question>, ds: seq<Draw>, kind: Kind, lines: seq<AnswerLine>)
    requires AnswersFrom(records, ds, kind, lines)
    requires forall d :: d in ds ==> d.query.kind == kind
    ensures |lines| <= Requested(ds)
    ensures forall i :: 0 <= i < |lines| ==> lines[i].number == i + 1 && lines[i].question != ""
  {
    var picks :| Selection(records, ds, picks) && lines == NumberAnswers(Concat(picks), kind);
    SelectionBound(records, ds, picks);
    var qs := Concat(picks);
    forall i | 0 <= i < |lines| ensures lines[i].number == i + 1 && lines[i].question != "" {
      assert qs[i] in qs;
      var d :| d in ds && Matches(qs[i], d.query);
    }
  }

  /** A generated paper has `totalQuestions` = short + long answers, each list
      numbered 1..n with non-empty questions, and no more questions of either
      kind than its buckets ask for. */
  lemma PaperBound(records: seq<Question>, req: PaperRequest, paper: Paper)
    requires PaperFrom(records, req, paper)
    ensures var c, b := req.config.value, BaseOf(RequestFilters(req));
            paper.metadata.totalQuestions <= Requested(Draws(b, c.short, Short)) + Requested(Draws(b, c.long, Long))
    ensures paper.metadata.totalQuestions == |paper.shortAnswers| + |paper.longAnswers|
    ensures forall i :: 0 <= i < |paper.shortAnswers| ==> paper.shortAnswers[i].number == i + 1
    ensures forall i :: 0 <= i < |paper.longAnswers| ==> paper.longAnswers[i].number == i + 1
    ensures forall i :: 0 <= i < |paper.shortAnswers| ==> paper.shortAnswers[i].question != ""
    ensures forall i :: 0 <= i < |paper.longAnswers| ==> paper.longAnswers[i].question != ""
  {
    var c, b := req.config.value, BaseOf(RequestFilters(req));
    forall d | d in Draws(b, c.short, Short) ensures d.query.kind == Short {
      DrawShape(b, c.short, Short, d);
    }
    forall d | d in Draws(b, c.long, Long) ensures d.query.kind == Long {
      DrawShape(b, c.long, Long, d);
    }
    AnswersFromBound(records, Draws(b, c.short, Short), Short, paper.shortAnswers);
    AnswersFromBound(records, Draws(b, c.long, Long), Long, paper.longAnswers);
  }

  /** `generatePaper(req, res)`. */
  method GeneratePaper(store: Store, req: PaperRequest) returns (res: Response)
    requires req.config.Some? ==> CountsNonNegative(req.config.value.short) && CountsNonNegative(req.config.value.long)
    ensures res.BadRequest? <==> MissingFields(req) != []
    ensures res.BadRequest? ==> res.error == MissingFieldsMessage(MissingFields(req))
    ensures MissingFields(req) == [] && ValidatePaperConfig(req.config.value).Some?
            ==> res == ServerError(ErrorMessage(ValidatePaperConfig(req.config.value).value))
    ensures res.DatabaseError? <==>
            MissingFields(req) == [] && ValidatePaperConfig(req.config.value).None?
            && (NegativeSample(req.config.value.short) || NegativeSample(req.config.value.long))
    ensures MissingFields(req) == [] && ValidatePaperConfig(req.config.value).None?
            && !NegativeSample(req.config.value.short) && !NegativeSample(req.config.value.long)
            ==> (res.Generated? || res == ServerError(SubjectNotFound))
                && (res.Generated? <==> exists q :: q in store.records && q.subjectCode == req.subject)
    ensures res.Generated? ==> ValidatePaperConfig(req.config.value).None? && PaperFrom(store.records, req, res.paper)
  {
    var missing := MissingFields(req);
    NothingMissing(req);
    if missing != [] {
      return BadRequest(MissingFieldsMessage(missing));
    }
    var config := req.config.value;
    var check := ValidatePaperConfig(config);
    if check.Some? {
      return ServerError(ErrorMessage(check.value));
    }
    ValidatedSplitDefined(config.short, Short);
    ValidatedSplitDefined(config.long, Long);
    var filters := BaseOf(RequestFilters(req));
    var shortAnswers, shortPicks := SelectQuestions(store, filters, config.short, Short);
    if shortAnswers.None? {
      return DatabaseError;
    }
    var longAnswers, longPicks := SelectQuestions(store, filters, config.long, Long);
    if longAnswers.None? {
      return DatabaseError;
    }
    var subjectInfo := store.FindBySubjectCode(req.subject);
    if subjectInfo.None? {
      return ServerError(SubjectNotFound);
    }
    var shortLines := NumberAnswers(shortAnswers.value, Short);
    var longLines := NumberAnswers(longAnswers.value, Long);
    assert AnswersFrom(store.records, Draws(filters, config.short, Short), Short, shortLines) by {
      assert Selection(store.records, Draws(filters, config.short, Short), shortPicks);
    }
    assert AnswersFrom(store.records, Draws(filters, config.long, Long), Long, longLines) by {
      assert Selection(store.records, Draws(filters, config.long, Long), longPicks);
    }
    var metadata := Metadata(req.subject, subjectInfo.value.subject, req.branch, req.regulation, req.year,
                             req.semester, req.unit, |shortAnswers.value| + |longAnswers.value|);
    res := Generated(Paper(metadata, shortLines, longLines));
  }
}
