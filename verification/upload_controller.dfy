/** The spreadsheet upload: every row of the first sheet becomes one question
    record, and the records replace the stored questions of the first row's
    subject code. */
module UploadController {
  import opened Wrappers
  import opened JsValues
  import opened QuestionStore

  /** A cell value as the sheet reader hands it over. */
  datatype Cell = Num(n: int) | Str(s: string) | Bool(b: bool)

  /** One row: column header to cell; an empty cell is an absent key. */
  type Row = map<string, Cell>

  /** JavaScript truthiness of a cell. */
  predicate Truthy(c: Cell) {
    match c
    case Num(n) => n != 0
    case Str(s) => s != ""
    case Bool(b) => b
  }

  /** `String(c)`. */
  function CellString(c: Cell): string {
    match c
    case Num(n) => IntToString(n)
    case Str(s) => s
    case Bool(b) => if b then "true" else "false"
  }

  /** `String(row[column] || "")`: an absent or falsy cell becomes the empty
      text, a text cell is kept as it is, and a number becomes the decimal
      text that reads back as the same number. */
  function TextColumn(row: Row, column: string): (r: string)
    ensures r == "" <==> !(column in row && Truthy(row[column]))
    ensures column in row && row[column].Str? ==> r == row[column].s
    ensures column in row && row[column].Num? && row[column].n != 0 ==> r == IntToString(row[column].n)
    ensures column in row && row[column].Num? && row[column].n != 0 ==> ParseInt(r) == Some(row[column].n)
    ensures column in row && row[column] == Bool(true) ==> r == "true"
  {
    if column in row && Truthy(row[column]) then
      var c := row[column];
      if c.Num? then
        ParseIntOfDecimal(c.n, "");
        assert IntToString(c.n) + "" == IntToString(c.n);
        CellString(c)
      else CellString(c)
    else ""
  }

  /** `parseInt(row[column]) || 0`: a number cell keeps its value, a text cell
      is read with `parseInt`, and everything else (an absent cell, a boolean,
      text with no leading integer) becomes 0. */
  function IntColumn(row: Row, column: string): (r: int)
    ensures column in row && row[column].Num? ==> r == row[column].n
    ensures column !in row || row[column].Bool? ==> r == 0
    ensures column in row && row[column].Str? ==>
              r == match ParseInt(row[column].s) case None => 0 case Some(v) => v
    ensures r != 0 ==> column in row && (row[column].Num? || ParseInt(row[column].s) == Some(r))
  {
    if column !in row then
      ParseIntOfWord("undefined");
      ParseIntOrZero("undefined")
    else
      match row[column]
      case Num(n) =>
        ParseIntOfDecimal(n, "");
        assert IntToString(n) + "" == IntToString(n);
        ParseIntOrZero(IntToString(n))
      case Str(s) => ParseIntOrZero(s)
      case Bool(b) =>
        var text := if b then "true" else "false";
        ParseIntOfWord(text);
        ParseIntOrZero(text)
  }

  /** The record built from one row (the `data.map` callback). */
  function ToQuestion(row: Row): (q: Question)
    ensures q.shortQuestion == "" <==> !("Short Questions" in row && Truthy(row["Short Questions"]))
    ensures q.longQuestion == "" <==> !("Long Questions" in row && Truthy(row["Long Questions"]))
    ensures q.subjectCode == "" <==> !("Subject Code" in row && Truthy(row["Subject Code"]))
    ensures "Sem" in row && row["Sem"].Num? ==> q.semester == row["Sem"].n
    ensures "Unit" in row && row["Unit"].Num? ==> q.unit == row["Unit"].n
    ensures "B.T Level" in row && row["B.T Level"].Num? ==> q.btLevel == row["B.T Level"].n
  {
    Question(
      subjectCode := TextColumn(row, "Subject Code"),
      subject := TextColumn(row, "Subject"),
      branch := TextColumn(row, "Branch"),
      regulation := TextColumn(row, "Regulation"),
      year := TextColumn(row, "Year"),
      semester := IntColumn(row, "Sem"),
      examMonth := TextColumn(row, "Month"),
      serialNo := IntColumn(row, "S.No."),
      shortQuestion := TextColumn(row, "Short Questions"),
      longQuestion := TextColumn(row, "Long Questions"),
      unit := IntColumn(row, "Unit"),
      btLevel := IntColumn(row, "B.T Level"))
  }

  /** `data.map(...)`: exactly one record per row, in row order. */
  function ToQuestions(rows: seq<Row>): (r: seq<Question>)
    ensures |r| == |rows|
    ensures forall i :: 0 <= i < |rows| ==> r[i] == ToQuestion(rows[i])
  {
    if rows == [] then []
    else ToQuestions(rows[..|rows| - 1]) + [ToQuestion(rows[|rows| - 1])]
  }

  /** The handler's answers: success with the number of rows, or status 400. */
  datatype UploadResponse =
    | Uploaded(message: string, count: int)
    | Rejected(error: string)

  /** After an upload of the records `added`, the store holds the old records
      of every other subject code than the first new record's, in their old
      order, followed by the new records. */
  function Replaced(records: seq<Question>, added: seq<Question>): seq<Question>
    requires added != []
  {
    WithoutSubject(records, added[0].subjectCode) + added
  }

  /** Only records of the first new record's subject code are removed; every
      record of another code survives, even when later new records carry that
      code; and the new records follow, in order. */
  lemma ReplacedContents(records: seq<Question>, added: seq<Question>)
    requires added != []
    ensures var code, r := added[0].subjectCode, Replaced(records, added);
            && |r| == |records| - CountSubject(records, code) + |added|
            && (forall q :: q in r <==> (q in records && q.subjectCode != code) || q in added)
            && (forall q :: multiset(r)[q] == (if q.subjectCode == code then 0 else multiset(records)[q]) + multiset(added)[q])
            && r[|r| - |added|..] == added
  {
    var code := added[0].subjectCode;
    var kept := WithoutSubject(records, code);
    WithoutSubjectCounts(records, code);
    assert Replaced(records, added)[|kept|..] == added;
  }

  /** Uploading the same records twice leaves the store as one upload did
      exactly when they all carry the first one's subject code; records of any
      other code are stored again by every upload. */
  lemma ReplacedIdempotent(records: seq<Question>, added: seq<Question>)
    requires added != []
    ensures Replaced(Replaced(records, added), added) == Replaced(records, added)
            <==> forall i :: 0 <= i < |added| ==> added[i].subjectCode == added[0].subjectCode
  {
    var code := added[0].subjectCode;
    var kept, extra := WithoutSubject(records, code), WithoutSubject(added, code);
    ReplacedTwice(records, added);
    WithoutSubjectEmpty(added, code);
    if extra == [] {
      assert kept + extra + added == kept + added;
    } else {
      assert |kept + extra + added| != |kept + added|;
    }
  }

  /** A second upload keeps the first one's records and adds again those of
      another subject code than the first. */
  lemma ReplacedTwice(records: seq<Question>, added: seq<Question>)
    requires added != []
    ensures var code := added[0].subjectCode;
            Replaced(Replaced(records, added), added)
            == WithoutSubject(records, code) + WithoutSubject(added, code) + added
  {
    var code := added[0].subjectCode;
    var kept := WithoutSubject(records, code);
    WithoutSubjectAppend(kept, added, code);
    WithoutAbsentSubject(kept, code);
  }

  /** `uploadQuestions(req, res)`; `file` is the parsed first sheet, absent when
      no file was sent. */
  method UploadQuestions(store: Store, file: Option<seq<Row>>) returns (res: UploadResponse)
    modifies store
    ensures file.None? ==> res == Rejected("File is required") && store.records == old(store.records)
    ensures file == Some([]) ==> res == Rejected("Excel file is empty") && store.records == old(store.records)
    ensures file.Some? && file.value != [] ==>
              && res == Uploaded("Questions uploaded successfully!", |file.value|)
              && store.records == Replaced(old(store.records), ToQuestions(file.value))
  {
    if file.None? {
      return Rejected("File is required");
    }
    var data := file.value;
    if |data| == 0 {
      return Rejected("Excel file is empty");
    }
    var questions := ToQuestions(data);
    var subjectCode := questions[0].subjectCode;
    store.DeleteBySubjectCode(subjectCode);
    store.InsertMany(questions);
    res := Uploaded("Questions uploaded successfully!", |questions|);
  }
}
