/** The paper-generation form of the web client: its state slots and their
    update handlers, the request configuration it submits, and the helpers
    that fill its drop-down lists from the subject summaries. */
module GeneratePaperForm {
  import opened Wrappers
  import opened JsValues
  import opened QuestionStore
  import opened GenerateController

  // ---------------------------------------------------------------------------
  // Count lists

  /** One row of a count list: a BT level or a unit, and its count. */
  datatype Slot = Slot(key: int, count: int)

  /** `[{ key: 1, count: 0 }, ..., { key: n, count: 0 }]`. */
  function InitialSlots(n: nat): seq<Slot> {
    seq(n, i => Slot(i + 1, 0))
  }

  /** A list whose keys are 1..n, in order. */
  predicate Numbered(slots: seq<Slot>, n: nat) {
    |slots| == n && forall i :: 0 <= i < n ==> slots[i].key == i + 1
  }

  /** `slots.map(s => s.key === key ? { ...s, count } : s)`: the entries with
      that key take the new count; the list keeps its length, its keys and
      every other entry. */
  function UpdateCount(slots: seq<Slot>, key: int, count: int): (r: seq<Slot>)
    ensures |r| == |slots|
    ensures forall i :: 0 <= i < |slots| ==> r[i].key == slots[i].key
    ensures forall i :: 0 <= i < |slots| ==> r[i] == (if slots[i].key == key then Slot(key, count) else slots[i])
  {
    seq(|slots|, i requires 0 <= i < |slots| => if slots[i].key == key then Slot(key, count) else slots[i])
  }

  /** `Object.fromEntries(slots.filter(s => s.count > 0).map(s => [s.key, s.count]))`,
      for a list whose keys ascend as in the form's lists. */
  function ToCountMap(slots: seq<Slot>): (r: CountMap)
    ensures forall e :: e in r <==> e.count > 0 && Slot(e.key, e.count) in slots
    ensures |r| <= |slots|
  {
    if slots == [] then []
    else
      var init, last := slots[..|slots| - 1], slots[|slots| - 1];
      assert slots == init + [last];
      ToCountMap(init) + (if last.count > 0 then [Entry(last.key, last.count)] else [])
  }

  predicate KeysAscend(slots: seq<Slot>) {
    forall i, j :: 0 <= i < j < |slots| ==> slots[i].key < slots[j].key
  }

  /** The map built from a list with ascending keys lists its keys in the same
      ascending order (the order `Object.entries` gives integer keys back in),
      and none of its counts is zero or negative. */
  lemma {:induction false} ToCountMapOrdered(slots: seq<Slot>)
    requires KeysAscend(slots)
    ensures var r := ToCountMap(slots);
            (forall i, j :: 0 <= i < j < |r| ==> r[i].key < r[j].key) && AllNonNegative(r)
  {
    if slots != [] {
      var init, last := slots[..|slots| - 1], slots[|slots| - 1];
      ToCountMapOrdered(init);
      var r0 := ToCountMap(init);
      forall i | 0 <= i < |r0| ensures r0[i].key < last.key {
        assert r0[i] in r0;
        var k :| 0 <= k < |init| && init[k] == Slot(r0[i].key, r0[i].count);
      }
    }
  }

  /** Setting one key's count changes the built map at that key only: a
      positive count is in the map under that key, a count of zero or less
      removes the key. */
  lemma UpdateThenMap(slots: seq<Slot>, key: int, count: int)
    requires exists i :: 0 <= i < |slots| && slots[i].key == key
    ensures var before, after := ToCountMap(slots), ToCountMap(UpdateCount(slots, key, count));
            && (count > 0 ==> Entry(key, count) in after)
            && (forall e :: e in after && e.key == key ==> e.count == count)
            && (forall e: Entry :: e.key != key ==> (e in after <==> e in before))
  {
    var updated := UpdateCount(slots, key, count);
    var i :| 0 <= i < |slots| && slots[i].key == key;
    assert updated[i] == Slot(key, count);
    forall e: Entry | e.key != key
      ensures Slot(e.key, e.count) in updated <==> Slot(e.key, e.count) in slots
    {
      if Slot(e.key, e.count) in slots {
        var k :| 0 <= k < |slots| && slots[k] == Slot(e.key, e.count);
        assert updated[k] == slots[k];
      }
      if Slot(e.key, e.count) in updated {
        var k :| 0 <= k < |updated| && updated[k] == Slot(e.key, e.count);
        assert updated[k] == slots[k];
      }
    }
  }

  // ---------------------------------------------------------------------------
  // The form's state

  /** A value held once for short and once for long questions. */
  datatype PerKind<T> = PerKind(short: T, long: T) {
    function Get(kind: Kind): T {
      match kind
      case Short => short
      case Long => long
    }

    /** `{ ...prev, [kind]: v }`. */
    function Set(kind: Kind, v: T): (r: PerKind<T>)
      ensures r.Get(kind) == v
      ensures r.Get(Other(kind)) == Get(Other(kind))
    {
      match kind
      case Short => PerKind(v, long)
      case Long => PerKind(short, v)
    }
  }

  function Other(kind: Kind): Kind {
    match kind
    case Short => Long
    case Long => Short
  }

  /** The `name` of a filter drop-down. */
  datatype FilterField = SubjectFilter | BranchFilter | RegulationFilter | YearFilter | SemesterFilter | UnitFilter

  /** `{ ...prev, [name]: value }`. */
  function WithFilter(f: Filters, field: FilterField, value: string): Filters {
    match field
    case SubjectFilter => f.(subject := value)
    case BranchFilter => f.(branch := value)
    case RegulationFilter => f.(regulation := value)
    case YearFilter => f.(year := value)
    case SemesterFilter => f.(semester := value)
    case UnitFilter => f.(unit := value)
  }

  /** The state slots of the form, together. */
  datatype FormState = FormState(
    filters: Filters,
    generationMode: PerKind<string>,
    useBtLevels: PerKind<bool>,
    totalCounts: PerKind<int>,
    btLevels: PerKind<seq<Slot>>,
    unitCounts: PerKind<seq<Slot>>)

  /** The per-kind configuration submitted for a kind. */
  function BuildTypeConfig(s: FormState, kind: Kind): (c: TypeConfig)
    requires Numbered(s.btLevels.Get(kind), 4) && Numbered(s.unitCounts.Get(kind), 5)
    ensures c.useUnitWise <==> s.generationMode.Get(kind) == "unitWise"
    ensures c.useBtLevels == s.useBtLevels.Get(kind) && c.totalCount == s.totalCounts.Get(kind)
    ensures forall e :: e in c.btLevelCounts <==> e.count > 0 && Slot(e.key, e.count) in s.btLevels.Get(kind)
    ensures forall e :: e in c.unitCounts <==> e.count > 0 && Slot(e.key, e.count) in s.unitCounts.Get(kind)
    ensures CountsNonNegative(c)
    ensures forall i, j :: 0 <= i < j < |c.btLevelCounts| ==> c.btLevelCounts[i].key < c.btLevelCounts[j].key
    ensures forall i, j :: 0 <= i < j < |c.unitCounts| ==> c.unitCounts[i].key < c.unitCounts[j].key
  {
    ToCountMapOrdered(s.btLevels.Get(kind));
    ToCountMapOrdered(s.unitCounts.Get(kind));
    TypeConfig(
      useUnitWise := s.generationMode.Get(kind) == "unitWise",
      useBtLevels := s.useBtLevels.Get(kind),
      totalCount := s.totalCounts.Get(kind),
      btLevelCounts := ToCountMap(s.btLevels.Get(kind)),
      unitCounts := ToCountMap(s.unitCounts.Get(kind)))
  }

  /** The form as an object whose handlers replace its state slots. */
  class PaperForm {
    var filters: Filters
    var generationMode: PerKind<string>
    var useBtLevels: PerKind<bool>
    var totalCounts: PerKind<int>
    var btLevels: PerKind<seq<Slot>>
    var unitCounts: PerKind<seq<Slot>>

    function State(): FormState
      reads this
    {
      FormState(filters, generationMode, useBtLevels, totalCounts, btLevels, unitCounts)
    }

    /** The count lists keep BT levels 1..4 and units 1..5. */
    predicate Valid()
      reads this
    {
      && Numbered(btLevels.short, 4) && Numbered(btLevels.long, 4)
      && Numbered(unitCounts.short, 5) && Numbered(unitCounts.long, 5)
    }

    /** Empty filters, total mode without BT levels, every count 0. */
    constructor ()
      ensures Valid()
      ensures filters == Filters("", "", "", "", "", "")
      ensures generationMode == PerKind("total", "total")
      ensures useBtLevels == PerKind(false, false)
      ensures totalCounts == PerKind(0, 0)
      ensures btLevels == PerKind(InitialSlots(4), InitialSlots(4))
      ensures unitCounts == PerKind(InitialSlots(5), InitialSlots(5))
      ensures forall kind, i :: 0 <= i < 4 ==> btLevels.Get(kind)[i] == Slot(i + 1, 0)
      ensures forall kind, i :: 0 <= i < 5 ==> unitCounts.Get(kind)[i] == Slot(i + 1, 0)
    {
      filters := Filters("", "", "", "", "", "");
      generationMode := PerKind("total", "total");
      useBtLevels := PerKind(false, false);
      totalCounts := PerKind(0, 0);
      btLevels := PerKind(InitialSlots(4), InitialSlots(4));
      unitCounts := PerKind(InitialSlots(5), InitialSlots(5));
    }

    /** `handleFilterChange`. */
    method SetFilter(field: FilterField, value: string)
      requires Valid()
      modifies this
      ensures Valid()
      ensures State() == old(State()).(filters := WithFilter(old(filters), field, value))
    {
      filters := WithFilter(filters, field, value);
    }

    /** `handleModeChange`. */
    method SetMode(kind: Kind, mode: string)
      requires Valid()
      modifies this
      ensures Valid()
      ensures State() == old(State()).(generationMode := old(generationMode).Set(kind, mode))
    {
      generationMode := generationMode.Set(kind, mode);
    }

    /** `handleBtLevelToggle`. */
    method ToggleBtLevels(kind: Kind)
      requires Valid()
      modifies this
      ensures Valid()
      ensures State() == old(State()).(useBtLevels := old(useBtLevels).Set(kind, !old(useBtLevels).Get(kind)))
    {
      useBtLevels := useBtLevels.Set(kind, !useBtLevels.Get(kind));
    }

    /** `handleTotalCountChange`: input that does not start with an integer is stored as 0. */
    method SetTotalCount(kind: Kind, text: string)
      requires Valid()
      modifies this
      ensures Valid()
      ensures State() == old(State()).(totalCounts := old(totalCounts).Set(kind, ParseIntOrZero(text)))
    {
      totalCounts := totalCounts.Set(kind, ParseIntOrZero(text));
    }

    /** `handleBTLevelChange`. */
    method SetBtLevelCount(kind: Kind, level: int, text: string)
      requires Valid()
      modifies this
      ensures Valid()
      ensures State() == old(State()).(btLevels :=
                old(btLevels).Set(kind, UpdateCount(old(btLevels).Get(kind), level, ParseIntOrZero(text))))
    {
      btLevels := btLevels.Set(kind, UpdateCount(btLevels.Get(kind), level, ParseIntOrZero(text)));
    }

    /** `handleUnitCountChange`. */
    method SetUnitCount(kind: Kind, unit: int, text: string)
      requires Valid()
      modifies this
      ensures Valid()
      ensures State() == old(State()).(unitCounts :=
                old(unitCounts).Set(kind, UpdateCount(old(unitCounts).Get(kind), unit, ParseIntOrZero(text))))
    {
      unitCounts := unitCounts.Set(kind, UpdateCount(unitCounts.Get(kind), unit, ParseIntOrZero(text)));
    }

    /** The `config` object `handleSubmit` builds. */
    function Config(): (c: PaperConfig)
      requires Valid()
      reads this
      ensures c.short == BuildTypeConfig(State(), Short) && c.long == BuildTypeConfig(State(), Long)
    {
      PaperConfig(BuildTypeConfig(State(), Short), BuildTypeConfig(State(), Long))
    }

    /** `{ ...filters, config }`: a request the generation handler accepts
        without a split by zero. */
    function Request(): (r: PaperRequest)
      requires Valid()
      reads this
      ensures r.config == Some(Config())
      ensures RequestFilters(r) == filters
      ensures CountsNonNegative(r.config.value.short) && CountsNonNegative(r.config.value.long)
    {
      PaperRequest(filters.subject, filters.branch, filters.regulation, filters.year, filters.semester,
                   filters.unit, Some(Config()))
    }
  }

  // ---------------------------------------------------------------------------
  // Drop-down helpers

  /** A value of a subject summary field. */
  datatype Value = Num(n: int) | Text(s: string)

  /** A field is one value or an array of them. */
  datatype FieldValue = Scalar(v: Value) | Array(vs: seq<Value>)

  /** One subject as the subject list gives it: the first question's details
      and the set of years and of semesters seen for the subject code. */
  datatype SubjectSummary = SubjectSummary(
    subjectCode: string,
    subject: string,
    branch: FieldValue,
    regulation: FieldValue,
    year: FieldValue,
    semester: FieldValue)

  /** The fields `getUniqueValues` is asked for. */
  datatype SummaryField = BranchOf | RegulationOf | YearOf | SemesterOf

  function FieldOf(s: SubjectSummary, field: SummaryField): FieldValue {
    match field
    case BranchOf => s.branch
    case RegulationOf => s.regulation
    case YearOf => s.year
    case SemesterOf => s.semester
  }

  /** `Array.isArray(x) ? x : [x]`. */
  function Elements(x: FieldValue): seq<Value> {
    match x
    case Scalar(v) => [v]
    case Array(vs) => vs
  }

  /** `subjects.flatMap(s => Array.isArray(s[field]) ? s[field] : [s[field]])`:
      every value of the field across the subjects. */
  function Flatten(subjects: seq<SubjectSummary>, field: SummaryField): (r: seq<Value>)
    ensures forall v :: v in r <==> exists i :: 0 <= i < |subjects| && v in Elements(FieldOf(subjects[i], field))
  {
    if subjects == [] then []
    else
      var init, last := subjects[..|subjects| - 1], subjects[|subjects| - 1];
      var r := Flatten(init, field) + Elements(FieldOf(last, field));
      assert forall i :: 0 <= i < |init| ==> init[i] == subjects[i];
      r
  }

  /** `[...new Set(vs)]`: each value once, at its first occurrence. */
  function Dedupe(vs: seq<Value>): (r: seq<Value>)
    ensures forall v :: multiset(r)[v] == if v in vs then 1 else 0
  {
    if vs == [] then []
    else
      var init, last := vs[..|vs| - 1], vs[|vs| - 1];
      assert vs == init + [last];
      Dedupe(init) + if last in init then [] else [last]
  }

  /** `isNaN(v)`. */
  predicate IsNaN(v: Value) {
    v.Text? && StringToNumber(v.s).None?
  }

  /** `Number(v)`, with `NaN` read as 0 (only used where `v` is a number). */
  function NumberOf(v: Value): int {
    match v
    case Num(n) => n
    case Text(s) => match StringToNumber(s) case None => 0 case Some(n) => n
  }

  /** `String(v)`. */
  function TextOf(v: Value): string {
    match v
    case Num(n) => IntToString(n)
    case Text(s) => s
  }

  /** `a.localeCompare(b)`, as the order of code points. */
  function TextCompare(a: string, b: string): (r: int)
    ensures -1 <= r <= 1
    ensures r == 0 <==> a == b
  {
    if a == [] && b == [] then 0
    else if a == [] then -1
    else if b == [] then 1
    else if a[0] < b[0] then -1
    else if a[0] > b[0] then 1
    else
      var r := TextCompare(a[1..], b[1..]);
      assert r == 0 ==> a == [a[0]] + a[1..] && b == [b[0]] + b[1..];
      r
  }

  /** Swapping the texts negates the comparison. */
  lemma {:induction false} TextCompareFlip(a: string, b: string)
    ensures TextCompare(a, b) == -TextCompare(b, a)
  {
    if a != [] && b != [] && a[0] == b[0] {
      TextCompareFlip(a[1..], b[1..]);
    }
  }

  /** The order of texts is transitive. */
  lemma {:induction false} TextCompareTrans(a: string, b: string, c: string)
    requires TextCompare(a, b) <= 0 && TextCompare(b, c) <= 0
    ensures TextCompare(a, c) <= 0
  {
    if a != [] && b != [] && c != [] && a[0] == b[0] && b[0] == c[0] {
      TextCompareTrans(a[1..], b[1..], c[1..]);
    }
  }

  /** The comparator `(a, b) => isNaN(a) ? a.localeCompare(b) : Number(a) - Number(b)`;
      `NaN` from a non-numeric `b` compares as 0. */
  function Compare(a: Value, b: Value): int {
    if IsNaN(a) then TextCompare(a.s, TextOf(b))
    else if IsNaN(b) then 0
    else NumberOf(a) - NumberOf(b)
  }

  /** Numbers compare by value; text that is not a number compares by its
      text with the other value's text, equal exactly for equal texts; a number
      against such text compares as equal. */
  lemma CompareOrder(a: Value, b: Value)
    ensures var r := Compare(a, b);
            && (!IsNaN(a) && !IsNaN(b) ==> (r < 0 <==> NumberOf(a) < NumberOf(b)) && (r == 0 <==> NumberOf(a) == NumberOf(b)))
            && (IsNaN(a) ==> -1 <= r <= 1 && (r == 0 <==> a.s == TextOf(b)))
            && (!IsNaN(a) && IsNaN(b) ==> r == 0)
  {
  }

  /** Inserts `x` into `s` after every element it does not sort before. */
  function Insert(x: Value, s: seq<Value>): (r: seq<Value>)
    ensures multiset(r) == multiset(s) + multiset{x}
  {
    InsertBy(Compare, x, s)
  }

  /** Inserts `x` into `s` after every element that `cmp` does not put after it. */
  function InsertBy<T>(cmp: (T, T) -> int, x: T, s: seq<T>): (r: seq<T>)
    ensures multiset(r) == multiset(s) + multiset{x}
  {
    if s == [] then [x]
    else if cmp(x, s[0]) < 0 then
      assert multiset([x] + s) == multiset{x} + multiset(s);
      [x] + s
    else
      var rest := InsertBy(cmp, x, s[1..]);
      assert multiset(s) == multiset{s[0]} + multiset(s[1..]) by {
        assert s == [s[0]] + s[1..];
      }
      assert multiset([s[0]] + rest) == multiset{s[0]} + multiset(rest);
      [s[0]] + rest
  }

  /** `vs.sort(Compare)`: a stable insertion sort, so a rearrangement of `vs`. */
  function SortValues(vs: seq<Value>): (r: seq<Value>)
    ensures multiset(r) == multiset(vs)
  {
    if vs == [] then []
    else
      var init, last := vs[..|vs| - 1], vs[|vs| - 1];
      assert vs == init + [last];
      Insert(last, SortValues(init))
  }

  predicate Numeric(vs: seq<Value>) {
    forall i :: 0 <= i < |vs| ==> !IsNaN(vs[i])
  }

  /** Numeric order of the values, as the comparator sorts numbers. */
  predicate Ascending(vs: seq<Value>) {
    AscendingBy(NumberOf, vs)
  }

  /** `lo` is no greater than any value's number. */
  predicate AtLeast(lo: int, s: seq<Value>) {
    AtLeastBy(NumberOf, lo, s)
  }

  /** `vs` ascends by `key`. */
  predicate AscendingBy<T>(key: T -> int, vs: seq<T>) {
    forall i, j :: 0 <= i < j < |vs| ==> key(vs[i]) <= key(vs[j])
  }

  /** `lo` bounds every key of `s` from below. */
  predicate AtLeastBy<T>(key: T -> int, lo: int, s: seq<T>) {
    forall k :: 0 <= k < |s| ==> lo <= key(s[k])
  }

  lemma {:induction false} InsertAscending(x: Value, s: seq<Value>)
    requires !IsNaN(x) && Numeric(s) && Ascending(s)
    ensures Ascending(Insert(x, s))
  {
    if s != [] {
      var head, tail := s[0], s[1..];
      HeadBounds(NumberOf, s);
      if Compare(x, head) >= 0 {
        assert Numeric(tail);
        InsertAscending(x, tail);
        InsertAtLeast(x, tail, NumberOf(head));
        AscendingCons(NumberOf, head, Insert(x, tail));
        assert Insert(x, s) == [head] + Insert(x, tail);
      } else {
        AscendingCons(NumberOf, x, s);
        assert Insert(x, s) == [x] + s;
      }
    }
  }

  /** The first of ascending values bounds the rest, which still ascend. */
  lemma HeadBounds<T>(key: T -> int, s: seq<T>)
    requires s != [] && AscendingBy(key, s)
    ensures AtLeastBy(key, key(s[0]), s) && AtLeastBy(key, key(s[0]), s[1..]) && AscendingBy(key, s[1..])
  {
    forall k | 0 <= k < |s[1..]| ensures s[1..][k] == s[k + 1] { }
  }

  /** A value no greater than any of an ascending list goes in front. */
  lemma AscendingCons<T>(key: T -> int, h: T, r: seq<T>)
    requires AtLeastBy(key, key(h), r) && AscendingBy(key, r)
    ensures AscendingBy(key, [h] + r)
  {
    forall i, j | 0 <= i < j < |[h] + r| ensures key(([h] + r)[i]) <= key(([h] + r)[j]) {
      assert ([h] + r)[j] == r[j - 1];
      if i > 0 {
        assert ([h] + r)[i] == r[i - 1];
      }
    }
  }

  /** A lower bound of `x` and of every element of `s` bounds the insertion. */
  lemma {:induction false} InsertAtLeast(x: Value, s: seq<Value>, lo: int)
    requires lo <= NumberOf(x) && AtLeast(lo, s)
    ensures AtLeast(lo, Insert(x, s))
  {
    if s != [] && Compare(x, s[0]) >= 0 {
      AtLeastTail(NumberOf, lo, s);
      InsertAtLeast(x, s[1..], lo);
    }
  }

  /** A lower bound of a list bounds its tail. */
  lemma AtLeastTail<T>(key: T -> int, lo: int, s: seq<T>)
    requires s != [] && AtLeastBy(key, lo, s)
    ensures AtLeastBy(key, lo, s[1..])
  {
    forall k | 0 <= k < |s[1..]| ensures s[1..][k] == s[k + 1] { }
  }

  /** With only numbers (or numeric text) to sort, the result ascends numerically. */
  lemma {:induction false} SortAscending(vs: seq<Value>)
    requires Numeric(vs)
    ensures Ascending(SortValues(vs))
  {
    if vs != [] {
      var init, last := vs[..|vs| - 1], vs[|vs| - 1];
      SortAscending(init);
      var sorted := SortValues(init);
      forall i | 0 <= i < |sorted| ensures !IsNaN(sorted[i]) {
        assert sorted[i] in multiset(init);
      }
      InsertAscending(last, sorted);
    }
  }

  /** Only text that is not a number, as branch and regulation fields hold. */
  predicate NonNumeric(vs: seq<Value>) {
    AllOf(IsNaN, vs)
  }

  /** Texts in strictly increasing `localeCompare` order. */
  predicate TextAscending(vs: seq<Value>) {
    forall i, j :: 0 <= i < j < |vs| ==> vs[i].Text? && vs[j].Text? && TextCompare(vs[i].s, vs[j].s) < 0
  }

  /** No later element sorts before an earlier one. */
  predicate SortedBy<T>(cmp: (T, T) -> int, s: seq<T>) {
    forall i, j :: 0 <= i < j < |s| ==> cmp(s[i], s[j]) <= 0
  }

  predicate AllOf<T>(ok: T -> bool, s: seq<T>) {
    forall i :: 0 <= i < |s| ==> ok(s[i])
  }

  /** What holds of every element of `a` holds of every element of `b`
      when `b` draws its elements from `a`. */
  lemma AllOfElements<T>(ok: T -> bool, a: seq<T>, b: seq<T>)
    requires AllOf(ok, a) && forall x :: x in multiset(b) ==> x in multiset(a)
    ensures AllOf(ok, b)
  {
    forall i | 0 <= i < |b| ensures ok(b[i]) {
      assert b[i] in multiset(b);
      var k :| 0 <= k < |a| && a[k] == b[i];
    }
  }

  /** On the values `ok` admits, `cmp` puts any two in an order, and that
      order is transitive. */
  ghost predicate TotalPreorderOn<T(!new)>(cmp: (T, T) -> int, ok: T -> bool) {
    && (forall a, b :: ok(a) && ok(b) && cmp(a, b) >= 0 ==> cmp(b, a) <= 0)
    && (forall a, b, c :: ok(a) && ok(b) && ok(c) && cmp(a, b) <= 0 && cmp(b, c) <= 0 ==> cmp(a, c) <= 0)
  }

  /** A value that sorts before none of a sorted list goes in front. */
  lemma SortedCons<T>(cmp: (T, T) -> int, h: T, r: seq<T>)
    requires (forall k :: 0 <= k < |r| ==> cmp(h, r[k]) <= 0) && SortedBy(cmp, r)
    ensures SortedBy(cmp, [h] + r)
  {
    forall i, j | 0 <= i < j < |[h] + r| ensures cmp(([h] + r)[i], ([h] + r)[j]) <= 0 {
      assert ([h] + r)[j] == r[j - 1];
      if i > 0 {
        assert ([h] + r)[i] == r[i - 1];
      }
    }
  }

  /** The tail of a sorted list of admitted values is one too. */
  lemma SortedTail<T>(cmp: (T, T) -> int, ok: T -> bool, s: seq<T>)
    requires s != [] && SortedBy(cmp, s) && AllOf(ok, s)
    ensures SortedBy(cmp, s[1..]) && AllOf(ok, s[1..])
  {
    forall k | 0 <= k < |s[1..]| ensures s[1..][k] == s[k + 1] { }
  }

  /** Insertion by a total preorder keeps a list sorted. */
  lemma {:induction false} InsertBySorted<T(!new)>(cmp: (T, T) -> int, ok: T -> bool, x: T, s: seq<T>)
    requires TotalPreorderOn(cmp, ok) && ok(x) && AllOf(ok, s) && SortedBy(cmp, s)
    ensures SortedBy(cmp, InsertBy(cmp, x, s))
  {
    if s != [] {
      if cmp(x, s[0]) < 0 {
        forall k | 0 <= k < |s| ensures cmp(x, s[k]) <= 0 {
          if k > 0 {
            assert ok(s[0]) && ok(s[k]) && cmp(s[0], s[k]) <= 0;
          }
        }
        SortedCons(cmp, x, s);
        assert InsertBy(cmp, x, s) == [x] + s;
      } else {
        var tail := s[1..];
        SortedTail(cmp, ok, s);
        InsertBySorted(cmp, ok, x, tail);
        var rest := InsertBy(cmp, x, tail);
        forall k | 0 <= k < |rest| ensures cmp(s[0], rest[k]) <= 0 {
          assert rest[k] in multiset(rest);
          if rest[k] == x {
            assert ok(s[0]) && cmp(x, s[0]) >= 0;
          } else {
            assert rest[k] in multiset(tail);
            var m :| 0 <= m < |tail| && tail[m] == rest[k];
            assert tail[m] == s[m + 1];
          }
        }
        SortedCons(cmp, s[0], rest);
        assert InsertBy(cmp, x, s) == [s[0]] + rest;
      }
    }
  }

  /** Between texts that are not numbers the comparator is `localeCompare`,
      a total order. */
  lemma CompareTextPreorder()
    ensures TotalPreorderOn(Compare, IsNaN)
  {
    forall a, b | IsNaN(a) && IsNaN(b) && Compare(a, b) >= 0 ensures Compare(b, a) <= 0 {
      TextCompareFlip(a.s, b.s);
    }
    forall a, b, c | IsNaN(a) && IsNaN(b) && IsNaN(c) && Compare(a, b) <= 0 && Compare(b, c) <= 0
      ensures Compare(a, c) <= 0
    {
      TextCompareTrans(a.s, b.s, c.s);
    }
  }

  /** With only text that is not a number to sort, the result is in
      `localeCompare` order. */
  lemma {:induction false} SortTextual(vs: seq<Value>)
    requires NonNumeric(vs)
    ensures SortedBy(Compare, SortValues(vs))
  {
    if vs != [] {
      var init, last := vs[..|vs| - 1], vs[|vs| - 1];
      SortTextual(init);
      var sorted := SortValues(init);
      AllOfElements(IsNaN, vs, init);
      AllOfElements(IsNaN, init, sorted);
      CompareTextPreorder();
      InsertBySorted(Compare, IsNaN, last, sorted);
    }
  }

  /** A value at two positions is counted twice. */
  lemma RepeatCounted<T>(s: seq<T>, i: int, j: int)
    requires 0 <= i < j < |s| && s[i] == s[j]
    ensures multiset(s)[s[i]] >= 2
  {
    assert s == s[..j] + [s[j]] + s[j + 1..];
    assert s[i] in multiset(s[..j]);
  }

  /** Sorted distinct texts ascend strictly. */
  lemma DistinctTextAscending(s: seq<Value>)
    requires NonNumeric(s) && SortedBy(Compare, s)
    requires forall v :: multiset(s)[v] <= 1
    ensures TextAscending(s)
  {
    forall i, j | 0 <= i < j < |s| ensures s[i].Text? && s[j].Text? && TextCompare(s[i].s, s[j].s) < 0 {
      if s[i] == s[j] {
        RepeatCounted(s, i, j);
      }
      assert IsNaN(s[i]) && IsNaN(s[j]) && Compare(s[i], s[j]) <= 0;
    }
  }

  /** `getUniqueValues(field)`: every value of the field across the subjects,
      array fields flattened, each exactly once; in ascending numeric order
      when every value is a number, and in strictly ascending
      `localeCompare` order when none is. */
  function UniqueValues(subjects: seq<SubjectSummary>, field: SummaryField): (r: seq<Value>)
    ensures forall v :: multiset(r)[v] == if v in Flatten(subjects, field) then 1 else 0
    ensures Numeric(Flatten(subjects, field)) ==> Ascending(r)
    ensures NonNumeric(Flatten(subjects, field)) ==> TextAscending(r)
  {
    var values := Flatten(subjects, field);
    var unique := Dedupe(values);
    UniqueTextAscending(values);
    if Numeric(values) then
      forall i | 0 <= i < |unique| ensures !IsNaN(unique[i]) {
        assert unique[i] in multiset(unique);
      }
      SortAscending(unique);
      SortValues(unique)
    else SortValues(unique)
  }

  /** Texts that are not numbers, deduplicated and sorted, ascend strictly. */
  lemma {:induction false} UniqueTextAscending(values: seq<Value>)
    ensures NonNumeric(values) ==> TextAscending(SortValues(Dedupe(values)))
  {
    if NonNumeric(values) {
      var unique := Dedupe(values);
      assert forall v :: multiset(unique)[v] <= 1;
      assert NonNumeric(unique) by {
        AllOfElements(IsNaN, values, unique);
      }
      SortedDistinctText(unique);
    }
  }

  /** Distinct texts that are not numbers, sorted, ascend strictly. */
  lemma {:induction false} SortedDistinctText(unique: seq<Value>)
    requires NonNumeric(unique) && forall v :: multiset(unique)[v] <= 1
    ensures TextAscending(SortValues(unique))
  {
    SortTextual(unique);
    var sorted := SortValues(unique);
    AllOfElements(IsNaN, unique, sorted);
    DistinctTextAscending(sorted);
  }

  /** `Array.isArray(x) ? x.includes(v) : x === v`. */
  predicate Includes(x: FieldValue, v: Value) {
    v in Elements(x)
  }

  /** The filter of the subject drop-down: an empty filter field imposes
      nothing; branch and regulation must equal the filter text; year must be
      among the subject's years, and semester, read as a number, among its
      semesters. */
  predicate SubjectVisible(f: Filters, s: SubjectSummary) {
    && (f.branch == "" || s.branch == Scalar(Text(f.branch)))
    && (f.regulation == "" || s.regulation == Scalar(Text(f.regulation)))
    && (f.year == "" || Includes(s.year, Text(f.year)))
    && (f.semester == "" || match StringToNumber(f.semester)
                            case None => false
                            case Some(n) => Includes(s.semester, Num(n)))
  }

  /** With no filter chosen every subject is offered. */
  lemma UnfilteredOffersAll(f: Filters, s: SubjectSummary)
    requires f.branch == "" && f.regulation == "" && f.year == "" && f.semester == ""
    ensures SubjectVisible(f, s)
  {
  }

  /** Each filter field acts on its own: clearing one never hides a subject,
      and the subject and unit fields play no part. */
  lemma ClearedFilterKeepsSubject(f: Filters, s: SubjectSummary, subject: string, unit: string)
    requires SubjectVisible(f, s)
    ensures SubjectVisible(f.(branch := ""), s) && SubjectVisible(f.(regulation := ""), s)
    ensures SubjectVisible(f.(year := ""), s) && SubjectVisible(f.(semester := ""), s)
    ensures SubjectVisible(f.(subject := subject, unit := unit), s)
  {
  }

  /** Choosing, for a subject, its own branch, regulation, one of its years and
      one of its semesters (as the drop-downs render them) keeps it offered. */
  lemma OfferedChoicesKeepSubject(s: SubjectSummary, f: Filters, year: string, semester: int)
    requires Includes(s.year, Text(year)) && Includes(s.semester, Num(semester))
    requires s.branch.Scalar? && s.branch.v.Text? && s.regulation.Scalar? && s.regulation.v.Text?
    ensures SubjectVisible(Filters(f.subject, s.branch.v.s, s.regulation.v.s, year, TextOf(Num(semester)), f.unit), s)
  {
    StringToNumberOfDecimal(semester);
  }
}
