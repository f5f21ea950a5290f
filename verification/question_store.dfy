/** The question collection: the shape of one stored question document, the
    `$match` queries the paper generator issues, and the collection itself as
    an object whose contents the upload handler replaces. */
module QuestionStore {
  import opened Wrappers

  /** One question document (backend/models/Question.js). */
  datatype Question = Question(
    subjectCode: string,
    subject: string,
    branch: string,
    regulation: string,
    year: string,
    semester: int,
    examMonth: string,
    serialNo: int,
    shortQuestion: string,
    longQuestion: string,
    unit: int,
    btLevel: int)

  /** The two kinds of question a paper holds. */
  datatype Kind = Short | Long

  /** The kind's name, as the request configuration and the messages spell it. */
  function KindName(kind: Kind): string {
    if kind == Short then "short" else "long"
  }

  /** The text of the question of the given kind. */
  function QuestionText(q: Question, kind: Kind): string {
    if kind == Short then q.shortQuestion else q.longQuestion
  }

  /** A condition on a numeric field of a `$match` stage: no condition, equality
      with a number, or equality with `NaN`, which no stored integer meets. */
  datatype NumberFilter = AnyNumber | EqualTo(n: int) | EqualToNaN

  predicate Admits(f: NumberFilter, v: int) {
    match f
    case AnyNumber => true
    case EqualTo(n) => v == n
    case EqualToNaN => false
  }

  /** A `$match` query: equality on the descriptive fields, a non-empty text of
      the requested kind, and optional unit and BT-level conditions. */
  datatype MatchQuery = MatchQuery(
    subjectCode: string,
    branch: string,
    regulation: string,
    year: string,
    semester: NumberFilter,
    kind: Kind,
    unit: NumberFilter,
    btLevel: NumberFilter)

  predicate Matches(q: Question, m: MatchQuery)
    ensures Matches(q, m) ==> m.semester != EqualToNaN && m.unit != EqualToNaN && m.btLevel != EqualToNaN
    ensures Matches(q, m) ==> QuestionText(q, m.kind) != ""
  {
    && q.subjectCode == m.subjectCode
    && q.branch == m.branch
    && q.regulation == m.regulation
    && q.year == m.year
    && Admits(m.semester, q.semester)
    && QuestionText(q, m.kind) != ""
    && Admits(m.unit, q.unit)
    && Admits(m.btLevel, q.btLevel)
  }

  /** The records of `s` whose subject code is not `code`, in their order
      (`WithoutSubjectAppend` and `WithoutSubjectSnoc` fix the order). */
  function WithoutSubject(s: seq<Question>, code: string): (r: seq<Question>)
    ensures forall q :: q in r <==> q in s && q.subjectCode != code
    ensures |r| + CountSubject(s, code) == |s|
  {
    if s == [] then []
    else
      var rest := WithoutSubject(s[..|s| - 1], code);
      var last := s[|s| - 1];
      assert s == s[..|s| - 1] + [last];
      if last.subjectCode == code then rest else rest + [last]
  }

  /** Every record of another subject code is kept as many times as `s` holds
      it, and no record of the code is kept. */
  lemma {:induction false} WithoutSubjectCounts(s: seq<Question>, code: string)
    ensures forall q :: multiset(WithoutSubject(s, code))[q] == if q.subjectCode == code then 0 else multiset(s)[q]
  {
    if s != [] {
      var init, last := s[..|s| - 1], s[|s| - 1];
      assert s == init + [last];
      WithoutSubjectCounts(init, code);
      WithoutSubjectSnoc(init, last, code);
    }
  }

  /** The number of records of `s` whose subject code is `code`. */
  function CountSubject(s: seq<Question>, code: string): nat {
    if s == [] then 0
    else CountSubject(s[..|s| - 1], code) + (if s[|s| - 1].subjectCode == code then 1 else 0)
  }

  /** Removing a subject that no record carries changes nothing. */
  lemma {:induction false} WithoutAbsentSubject(s: seq<Question>, code: string)
    requires forall q :: q in s ==> q.subjectCode != code
    ensures WithoutSubject(s, code) == s
  {
    if s != [] {
      var init, last := s[..|s| - 1], s[|s| - 1];
      assert s == init + [last];
      assert last in s;
      forall q | q in init ensures q.subjectCode != code {
        assert q in s;
      }
      WithoutAbsentSubject(init, code);
      assert WithoutSubject(s, code) == WithoutSubject(init, code) + [last];
    }
  }

  /** Removing a subject from two runs of records, one after the other,
      removes it from each run. */
  lemma {:induction false} WithoutSubjectAppend(a: seq<Question>, b: seq<Question>, code: string)
    ensures WithoutSubject(a + b, code) == WithoutSubject(a, code) + WithoutSubject(b, code)
  {
    if b == [] {
      assert a + b == a;
    } else {
      var init, last := b[..|b| - 1], b[|b| - 1];
      var ai := a + init;
      var tail := if last.subjectCode == code then [] else [last];
      assert b == init + [last];
      assert a + b == ai + [last];
      WithoutSubjectAppend(a, init, code);
      WithoutSubjectSnoc(ai, last, code);
      WithoutSubjectSnoc(init, last, code);
      calc {
        WithoutSubject(a + b, code);
        WithoutSubject(ai, code) + tail;
        WithoutSubject(a, code) + WithoutSubject(init, code) + tail;
        WithoutSubject(a, code) + (WithoutSubject(init, code) + tail);
        WithoutSubject(a, code) + WithoutSubject(b, code);
      }
    }
  }

  /** Appending one record keeps it exactly when its code is another. */
  lemma WithoutSubjectSnoc(s: seq<Question>, q: Question, code: string)
    ensures WithoutSubject(s + [q], code)
            == WithoutSubject(s, code) + if q.subjectCode == code then [] else [q]
  {
    assert (s + [q])[..|s|] == s;
  }

  /** Removing a subject leaves nothing exactly when every record carries it. */
  lemma WithoutSubjectEmpty(s: seq<Question>, code: string)
    ensures WithoutSubject(s, code) == [] <==> forall i :: 0 <= i < |s| ==> s[i].subjectCode == code
  {
    var r := WithoutSubject(s, code);
    if r != [] {
      assert r[0] in r;
    }
    if i :| 0 <= i < |s| && s[i].subjectCode != code {
      assert s[i] in r;
    }
  }

  /** The question collection as an ordered sequence of documents. */
  class Store {
    var records: seq<Question>

    constructor (initial: seq<Question>)
      ensures records == initial
    {
      records := initial;
    }

    /** `aggregate([{ $match: m }, { $sample: { size } }])`. The database's
        random choice is not modelled: all that is promised is that at most
        `size` matching documents of the collection come back. A negative size
        is refused. The body is one admissible answer (the first matches). */
    method Sample(m: MatchQuery, size: int) returns (r: Option<seq<Question>>)
      ensures r.None? <==> size < 0
      ensures r.Some? ==> |r.value| <= size
      ensures r.Some? ==> forall q :: q in r.value ==> q in records && Matches(q, m)
    {
      if size < 0 {
        return None;
      }
      var picked: seq<Question> := [];
      var i := 0;
      while i < |records| && |picked| < size
        invariant 0 <= i <= |records|
        invariant |picked| <= size
        invariant forall q :: q in picked ==> q in records[..i] && Matches(q, m)
      {
        if Matches(records[i], m) {
          picked := picked + [records[i]];
        }
        i := i + 1;
      }
      return Some(picked);
    }

    /** `findOne({ subjectCode: code })`. */
    method FindBySubjectCode(code: string) returns (r: Option<Question>)
      ensures r.Some? <==> exists q :: q in records && q.subjectCode == code
      ensures r.Some? ==> r.value in records && r.value.subjectCode == code
    {
      var i := 0;
      while i < |records|
        invariant 0 <= i <= |records|
        invariant forall k :: 0 <= k < i ==> records[k].subjectCode != code
      {
        if records[i].subjectCode == code {
          return Some(records[i]);
        }
        i := i + 1;
      }
      return None;
    }

    /** `deleteMany({ subjectCode: code })`. */
    method DeleteBySubjectCode(code: string)
      modifies this
      ensures records == WithoutSubject(old(records), code)
    {
      records := WithoutSubject(records, code);
    }

    /** `insertMany(qs)`: the new documents follow the existing ones. */
    method InsertMany(qs: seq<Question>)
      modifies this
      ensures records == old(records) + qs
    {
      records := records + qs;
    }
  }
}
