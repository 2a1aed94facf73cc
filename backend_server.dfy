/**
 * `backend-server/index.js`: a developer tool over the Firestore data of
 * every user. It defines a search page (`/` and `/search`) that lists the
 * transactions whose description contains a term, and a backup mode that
 * writes every transaction and every category to CSV files. Firestore
 * reads, the HTTP server and the file streams are outside the model: the
 * documents each query returns are inputs, a page is modelled by the
 * section it shows, and a CSV file by its header row and cells.
 */
module BackendServer {
  import opened Common
  import opened Sorting

  /** A Firestore field value as the script sees it. */
  datatype Value =
    | VNull
    | VBool(b: bool)
    | VNumber(n: real)
    | VString(s: string)
      /** A `Timestamp`: its `toDate().toISOString()`, its `JSON.stringify` and its `toDate().toLocaleString()`. */
    | VTimestamp(iso: string, json: string, local: string)
      /** Any other object (map, array, reference); `stringified` is `None` when `JSON.stringify` throws. */
    | VObject(stringified: Option<string>)

  /**
   * A document of a collection group: its id, its fields, and the path of
   * the document that owns its collection (`doc.ref.parent.parent.path`,
   * `None` for a top-level collection).
   */
  datatype Doc = Doc(id: string, data: map<string, Value>, parentPath: Option<string>)

  /** `docData[key]`: `None` is `undefined`. */
  function Field(d: Doc, key: string): (r: Option<Value>)
    ensures r.Some? <==> key in d.data
  {
    if key in d.data then Some(d.data[key]) else None
  }

  /** JavaScript truthiness (NaN is not modelled). */
  predicate Truthy(v: Option<Value>) {
    match v
    case None => false
    case Some(VNull) => false
    case Some(VBool(b)) => b
    case Some(VNumber(n)) => n != 0.0
    case Some(VString(s)) => s != ""
    case Some(_) => true
  }

  // ------------------------------------------------------------ the search page

  /** One row of the result table. */
  datatype FoundItem = FoundItem(id: string, date: string, description: string, amount: Value, isIncome: Option<Value>)

  /** The part of the page below the form. */
  datatype Section =
    | ErrorSection(error: string)
    | ResultsTable(searchTerm: string, count: nat, rows: seq<FoundItem>)
    | NoMatches(searchTerm: string)
    | NoSection

  /** A page: the value the search box is filled with, and the section shown. */
  datatype Page = Page(formValue: string, section: Section)

  datatype Response = Response(status: int, page: Page)

  const TermRequired: string := "Search term is required."
  const FetchFailed: string := "Failed to fetch or process transactions. Check server logs."

  /**
   * `generateHtml`: an error (a non-empty string) wins over any results; a
   * non-empty result list is a table counting its rows; an empty list says
   * nothing matched; no list shows no section.
   */
  function GenerateHtml(searchTerm: string, results: Option<seq<FoundItem>>, error: Option<string>): (r: Page)
    ensures r.formValue == searchTerm
    ensures error.Some? && error.value != "" ==> r.section == ErrorSection(error.value)
    ensures !(error.Some? && error.value != "") ==>
              (results.Some? && |results.value| > 0 ==> r.section == ResultsTable(searchTerm, |results.value|, results.value))
              && (results.Some? && |results.value| == 0 ==> r.section == NoMatches(searchTerm))
              && (results.None? ==> r.section == NoSection)
  {
    var section :=
      if error.Some? && error.value != "" then ErrorSection(error.value)
      else if results.Some? && |results.value| > 0 then ResultsTable(searchTerm, |results.value|, results.value)
      else if results.Some? then NoMatches(searchTerm)
      else NoSection;
    Page(searchTerm, section)
  }

  /** The page a table section shows has one row per result, and its heading counts them. */
  lemma TableCountsRows(searchTerm: string, results: seq<FoundItem>)
    requires |results| > 0
    ensures var s := GenerateHtml(searchTerm, Some(results), None).section;
            s.ResultsTable? && s.count == |s.rows| && s.rows == results
  {
  }

  /** `app.get('/')`: the empty form. */
  function Root(): (r: Response)
    ensures r.status == 200 && r.page == Page("", NoSection)
  {
    Response(200, GenerateHtml("", None, None))
  }

  /**
   * `data.description || ""` and its `toLowerCase()`: the description text,
   * or `None` when a truthy non-string makes `toLowerCase` throw.
   */
  function DescriptionText(d: Doc): (r: Option<string>)
    ensures !Truthy(Field(d, "description")) ==> r == Some("")
    ensures Truthy(Field(d, "description")) && Field(d, "description").value.VString? ==> r == Some(d.data["description"].s)
    ensures r.None? <==> Truthy(Field(d, "description")) && !Field(d, "description").value.VString?
  {
    var v := Field(d, "description");
    if !Truthy(v) then Some("")
    else if v.value.VString? then Some(v.value.s)
    else None
  }

  /** The row pushed for a matching document. */
  function FoundItemOf(d: Doc, description: string): (r: FoundItem)
    ensures r.id == d.id && r.description == description
    ensures Field(d, "date").Some? && Field(d, "date").value.VTimestamp? ==> r.date == d.data["date"].local
    ensures !(Field(d, "date").Some? && Field(d, "date").value.VTimestamp?) ==> r.date == "Invalid Date"
    ensures Truthy(Field(d, "amount")) ==> r.amount == d.data["amount"]
    ensures !Truthy(Field(d, "amount")) ==> r.amount == VString("N/A")
    ensures r.isIncome == Field(d, "isIncome")
  {
    var date := Field(d, "date");
    var amount := Field(d, "amount");
    FoundItem(d.id,
              if date.Some? && date.value.VTimestamp? then date.value.local else "Invalid Date",
              description,
              if Truthy(amount) then amount.value else VString("N/A"),
              Field(d, "isIncome"))
  }

  predicate Matches(description: string, searchTerm: string) {
    Contains(LowerStr(description), LowerStr(searchTerm))
  }

  /** The rows found among documents none of which throws. */
  function Found(docs: seq<Doc>, searchTerm: string): (r: seq<FoundItem>)
    requires forall d :: d in docs ==> DescriptionText(d).Some?
    ensures |r| <= |docs|
    ensures forall item :: item in r ==> exists d :: d in docs && item.id == d.id
  {
    if docs == [] then []
    else
      var init := docs[..|docs|-1];
      var d := docs[|docs|-1];
      assert forall e :: e in init ==> e in docs;
      var desc := DescriptionText(d).value;
      Found(init, searchTerm) + (if Matches(desc, searchTerm) then [FoundItemOf(d, desc)] else [])
  }

  /** What the `forEach` over the documents produces: `None` when one of them throws. */
  function SearchResults(docs: seq<Doc>, searchTerm: string): (r: Option<seq<FoundItem>>)
    ensures r.None? <==> exists d :: d in docs && DescriptionText(d).None?
  {
    if forall d :: d in docs ==> DescriptionText(d).Some? then Some(Found(docs, searchTerm)) else None
  }

  /** A row is found exactly for each document whose description contains the term, ignoring case. */
  lemma {:induction false} FoundIff(docs: seq<Doc>, searchTerm: string)
    requires forall d :: d in docs ==> DescriptionText(d).Some?
    ensures forall d :: d in docs && Matches(DescriptionText(d).value, searchTerm)
              ==> FoundItemOf(d, DescriptionText(d).value) in Found(docs, searchTerm)
    ensures forall item :: item in Found(docs, searchTerm) ==>
              exists d :: d in docs && Matches(DescriptionText(d).value, searchTerm)
                          && item == FoundItemOf(d, DescriptionText(d).value)
    ensures |Found(docs, searchTerm)| <= |docs|
  {
    if docs != [] {
      var init := docs[..|docs|-1];
      assert docs == init + [docs[|docs|-1]];
      FoundIff(init, searchTerm);
    }
  }

  /** The `/search` loop: rows are pushed in query order until a description throws. */
  method SearchDocs(docs: seq<Doc>, searchTerm: string) returns (found: Option<seq<FoundItem>>)
    ensures found == SearchResults(docs, searchTerm)
  {
    var foundTransactions := [];
    var i := 0;
    while i < |docs|
      invariant 0 <= i <= |docs|
      invariant forall d :: d in docs[..i] ==> DescriptionText(d).Some?
      invariant foundTransactions == Found(docs[..i], searchTerm)
    {
      var d := docs[i];
      var description := DescriptionText(d);
      if description.None? {
        assert d in docs;
        return None;
      }
      assert docs[..i + 1] == docs[..i] + [d];
      assert docs[..i + 1][..i] == docs[..i];
      if Matches(description.value, searchTerm) {
        foundTransactions := foundTransactions + [FoundItemOf(d, description.value)];
      }
      i := i + 1;
    }
    assert docs[..|docs|] == docs;
    found := Some(foundTransactions);
  }

  /**
   * `app.get('/search')`: a missing or empty term is a 400 with its error;
   * otherwise the query's documents (`None` when the query threw) are
   * searched and any failure shows the fetch error.
   */
  method Search(term: Option<string>, docs: Option<seq<Doc>>) returns (r: Response)
    ensures term.None? || term.value == "" ==> r == Response(400, Page("", ErrorSection(TermRequired)))
    ensures term.Some? && term.value != "" ==>
              r.status == 200 && r.page.formValue == term.value
              && (docs.None? || SearchResults(docs.value, term.value).None? ==> r.page.section == ErrorSection(FetchFailed))
              && (docs.Some? && SearchResults(docs.value, term.value).Some? ==>
                    r.page == GenerateHtml(term.value, SearchResults(docs.value, term.value), None))
  {
    if term.None? || term.value == "" {
      return Response(400, GenerateHtml("", None, Some(TermRequired)));
    }
    var searchTerm := term.value;
    var foundTransactions: seq<FoundItem> := [];
    var searchError: Option<string> := None;
    if docs.None? {
      searchError := Some(FetchFailed);
    } else {
      var found := SearchDocs(docs.value, searchTerm);
      if found.None? {
        searchError := Some(FetchFailed);
      } else {
        foundTransactions := found.value;
      }
    }
    r := Response(200, GenerateHtml(searchTerm, Some(foundTransactions), searchError));
  }

  /** A search that succeeds never shows `NoSection`: it is a table of the matches or the no-match text. */
  lemma SearchShowsMatches(term: string, docs: seq<Doc>)
    requires term != "" && forall d :: d in docs ==> DescriptionText(d).Some?
    ensures var page := GenerateHtml(term, SearchResults(docs, term), None);
            (page.section.ResultsTable? && page.section.rows == Found(docs, term))
            || (page.section.NoMatches? && Found(docs, term) == [])
  {
  }

  // ------------------------------------------------------------ the CSV backup

  datatype BackupKind = TransactionBackup | CategoryBackup

  /** A CSV cell as `fast-csv` receives it. */
  datatype Cell = Text(s: string) | Number(n: real) | Bool(b: bool)

  const StringifyError: string := "[Error stringifying object]"

  /**
   * The value of one header in a row: missing and null become ''; the
   * transaction backup writes timestamps as ISO strings, while the category
   * backup has no such branch and writes their JSON; other objects become
   * JSON; scalars are kept.
   */
  function CellOf(kind: BackupKind, v: Option<Value>): (r: Cell)
    ensures v.None? || v == Some(VNull) ==> r == Text("")
    ensures v.Some? && v.value.VTimestamp? ==> r == Text(if kind == TransactionBackup then v.value.iso else v.value.json)
    ensures v.Some? && v.value.VObject? ==> r == Text(OrElse(v.value.stringified, StringifyError))
    ensures v.Some? && v.value.VString? ==> r == Text(v.value.s)
    ensures v.Some? && v.value.VNumber? ==> r == Number(v.value.n)
    ensures v.Some? && v.value.VBool? ==> r == Bool(v.value.b)
  {
    match v
    case None => Text("")
    case Some(VNull) => Text("")
    case Some(VBool(b)) => Bool(b)
    case Some(VNumber(n)) => Number(n)
    case Some(VString(s)) => Text(s)
    case Some(VTimestamp(iso, json, _)) => Text(if kind == TransactionBackup then iso else json)
    case Some(VObject(stringified)) => Text(OrElse(stringified, StringifyError))
  }

  /** Every field name used by some document. */
  function HeaderSet(docs: seq<Doc>): set<string> {
    set d, k | d in docs && k in d.data :: k
  }

  lemma HeaderSetStep(docs: seq<Doc>, i: nat)
    requires i < |docs|
    ensures HeaderSet(docs[..i + 1]) == HeaderSet(docs[..i]) + docs[i].data.Keys
  {
    assert docs[..i + 1] == docs[..i] + [docs[i]];
  }

  /**
   * The header loop: every key of every document added to a set, then the
   * set's elements sorted. Keys are visited in an arbitrary order, which
   * the sort makes irrelevant.
   */
  method CollectHeaders(docs: seq<Doc>) returns (headers: seq<string>)
    ensures forall h :: h in headers <==> h in HeaderSet(docs)
    ensures StrictlySorted(headers)
  {
    var inserted: seq<string> := [];
    var i := 0;
    while i < |docs|
      invariant 0 <= i <= |docs|
      invariant NoDuplicates(inserted)
      invariant forall h :: h in inserted <==> h in HeaderSet(docs[..i])
    {
      var keys := docs[i].data.Keys;
      HeaderSetStep(docs, i);
      while keys != {}
        invariant keys <= docs[i].data.Keys
        invariant NoDuplicates(inserted)
        invariant forall h :: h in inserted <==> h in HeaderSet(docs[..i]) || h in docs[i].data.Keys - keys
        decreases |keys|
      {
        var key :| key in keys;
        if key !in inserted {
          inserted := inserted + [key];
        }
        keys := keys - {key};
      }
      i := i + 1;
    }
    assert docs[..|docs|] == docs;
    SortDistinct(inserted);
    headers := SortBy(inserted, StringLe);
  }

  /** How many leading columns precede the fields: "id", and "parentPath" for categories. */
  function Offset(kind: BackupKind): nat {
    if kind == TransactionBackup then 1 else 2
  }

  /** The CSV column names: "id", "parentPath" for categories, then the fields. */
  function Columns(kind: BackupKind, headers: seq<string>): (r: seq<string>)
    ensures |r| == Offset(kind) + |headers|
    ensures r[0] == "id" && (kind == CategoryBackup ==> r[1] == "parentPath")
    ensures forall j :: 0 <= j < |headers| ==> r[Offset(kind) + j] == headers[j]
  {
    if kind == TransactionBackup then ["id"] + headers else ["id", "parentPath"] + headers
  }

  /** The row object: its base fields, then each header written in turn (a field named "id" overwrites the id). */
  function RowAfter(kind: BackupKind, d: Doc, base: map<string, Cell>, headers: seq<string>): (r: map<string, Cell>)
  {
    if headers == [] then base
    else
      var h := headers[|headers|-1];
      RowAfter(kind, d, base, headers[..|headers|-1])[h := CellOf(kind, Field(d, h))]
  }

  /** The row's base object: `{ id: doc.id }`, plus `parentPath` for categories. */
  function BaseRow(kind: BackupKind, d: Doc, parentPath: string): map<string, Cell> {
    if kind == TransactionBackup then map["id" := Text(d.id)]
    else map["id" := Text(d.id), "parentPath" := Text(parentPath)]
  }

  /** Every column has a value: the header's cell, or the base field it did not overwrite. */
  lemma {:induction false} RowAfterShape(kind: BackupKind, d: Doc, base: map<string, Cell>, headers: seq<string>)
    ensures RowAfter(kind, d, base, headers).Keys == base.Keys + set h | h in headers
    ensures forall h :: h in headers ==> RowAfter(kind, d, base, headers)[h] == CellOf(kind, Field(d, h))
    ensures forall k :: k in base && k !in headers ==> RowAfter(kind, d, base, headers)[k] == base[k]
  {
    if headers != [] {
      var init := headers[..|headers|-1];
      RowAfterShape(kind, d, base, init);
      assert headers == init + [headers[|headers|-1]];
    }
  }

  /** `doc => { const row = …; headers.forEach(…); return row; }`. */
  method BuildRow(kind: BackupKind, d: Doc, parentPath: string, headers: seq<string>) returns (row: map<string, Cell>)
    ensures row == RowAfter(kind, d, BaseRow(kind, d, parentPath), headers)
  {
    row := BaseRow(kind, d, parentPath);
    var j := 0;
    while j < |headers|
      invariant 0 <= j <= |headers|
      invariant row == RowAfter(kind, d, BaseRow(kind, d, parentPath), headers[..j])
    {
      assert headers[..j + 1][..j] == headers[..j];
      row := row[headers[j] := CellOf(kind, Field(d, headers[j]))];
      j := j + 1;
    }
    assert headers[..|headers|] == headers;
  }

  /** One CSV line: the row's value under each column name. */
  function Line(row: map<string, Cell>, columns: seq<string>): (r: seq<Cell>)
    requires forall c :: c in columns ==> c in row
    ensures |r| == |columns|
  {
    if columns == [] then [] else [row[columns[0]]] + Line(row, columns[1..])
  }

  /** The cell of column `k` is the row's value under that column's name. */
  lemma {:induction false} LineAt(row: map<string, Cell>, columns: seq<string>, k: nat)
    requires forall c :: c in columns ==> c in row
    requires k < |columns|
    ensures Line(row, columns)[k] == row[columns[k]]
  {
    if k > 0 {
      LineAt(row, columns[1..], k - 1);
    }
  }

  /** The outcome of one backup: a rejected promise, nothing to write, or the file's columns and lines. */
  datatype BackupOutcome = BackupFailed | NothingToBackup | Written(columns: seq<string>, lines: seq<seq<Cell>>)

  /** The row object built for document `d`. */
  function RowOf(kind: BackupKind, d: Doc, headers: seq<string>): (r: map<string, Cell>)
    ensures forall c :: c in Columns(kind, headers) ==> c in r
  {
    var base := BaseRow(kind, d, OrElse(d.parentPath, ""));
    RowAfterShape(kind, d, base, headers);
    RowAfter(kind, d, base, headers)
  }

  /** The line of document `d` under the given headers. */
  function LineOf(kind: BackupKind, d: Doc, headers: seq<string>): (r: seq<Cell>)
  {
    Line(RowOf(kind, d, headers), Columns(kind, headers))
  }

  /** The file a backup writes: one line per document, in query order, under the sorted field names. */
  ghost predicate WrittenFile(kind: BackupKind, docs: seq<Doc>, headers: seq<string>, r: BackupOutcome) {
    StrictlySorted(headers) && (forall h :: h in headers <==> h in HeaderSet(docs))
    && r.Written? && r.columns == Columns(kind, headers)
    && |r.lines| == |docs|
    && forall i :: 0 <= i < |docs| ==> r.lines[i] == LineOf(kind, docs[i], headers)
  }

  /**
   * What a backup of `docs` ends in: a failed query fails, an empty one
   * writes nothing, a category without an owning document fails, and
   * otherwise the file holds one line per document.
   */
  ghost predicate BackupResult(kind: BackupKind, docs: Option<seq<Doc>>, r: BackupOutcome) {
    (docs.None? ==> r == BackupFailed)
    && (docs == Some([]) ==> r == NothingToBackup)
    && (docs.Some? && docs.value != [] && kind == CategoryBackup && (exists d :: d in docs.value && d.parentPath.None?) ==>
          r == BackupFailed)
    && (docs.Some? && docs.value != [] && (kind == CategoryBackup ==> forall d :: d in docs.value ==> d.parentPath.Some?) ==>
          exists headers :: WrittenFile(kind, docs.value, headers, r))
  }

  /**
   * `backupTransactionsToCsv` and `backupCategoriesToCsv`: `docs` is `None`
   * when the query throws. A category without an owning document makes
   * `parent.parent.path` throw, which rejects the backup.
   */
  method Backup(kind: BackupKind, docs: Option<seq<Doc>>) returns (r: BackupOutcome)
    ensures BackupResult(kind, docs, r)
  {
    if docs.None? {
      return BackupFailed;
    }
    var all := docs.value;
    if all == [] {
      return NothingToBackup;
    }
    var headers := CollectHeaders(all);
    var lines := BuildLines(kind, all, headers);
    if lines.None? {
      return BackupFailed;
    }
    r := Written(Columns(kind, headers), lines.value);
    assert WrittenFile(kind, all, headers, r);
  }

  /** `snapshot.docs.map(…)`: one line per document, or `None` when a category has no owning document. */
  method BuildLines(kind: BackupKind, all: seq<Doc>, headers: seq<string>) returns (lines: Option<seq<seq<Cell>>>)
    ensures lines.None? <==> kind == CategoryBackup && exists d :: d in all && d.parentPath.None?
    ensures lines.Some? ==> |lines.value| == |all| && forall k :: 0 <= k < |all| ==> lines.value[k] == LineOf(kind, all[k], headers)
  {
    var dataForCsv: seq<seq<Cell>> := [];
    var i := 0;
    while i < |all|
      invariant 0 <= i <= |all|
      invariant |dataForCsv| == i
      invariant kind == CategoryBackup ==> forall k :: 0 <= k < i ==> all[k].parentPath.Some?
      invariant forall k :: 0 <= k < i ==> dataForCsv[k] == LineOf(kind, all[k], headers)
    {
      var d := all[i];
      if kind == CategoryBackup && d.parentPath.None? {
        assert d in all;
        return None;
      }
      var line := BuildLine(kind, d, headers);
      dataForCsv := dataForCsv + [line];
      i := i + 1;
    }
    assert kind == CategoryBackup ==> forall d :: d in all ==> d.parentPath.Some? by {
      if kind == CategoryBackup {
        forall d | d in all ensures d.parentPath.Some? {
          var k :| 0 <= k < |all| && all[k] == d;
        }
      }
    }
    lines := Some(dataForCsv);
  }

  /** One document's row object, read out in column order. */
  method BuildLine(kind: BackupKind, d: Doc, headers: seq<string>) returns (line: seq<Cell>)
    ensures line == LineOf(kind, d, headers)
  {
    var row := BuildRow(kind, d, OrElse(d.parentPath, ""), headers);
    assert row == RowOf(kind, d, headers);
    line := Line(row, Columns(kind, headers));
  }

  /** Each line has a cell for every column, and the field columns hold the document's converted fields. */
  lemma LineCells(kind: BackupKind, d: Doc, headers: seq<string>)
    ensures |LineOf(kind, d, headers)| == Offset(kind) + |headers|
    ensures forall j :: 0 <= j < |headers| ==> LineOf(kind, d, headers)[Offset(kind) + j] == CellOf(kind, Field(d, headers[j]))
  {
    forall j | 0 <= j < |headers|
      ensures LineOf(kind, d, headers)[Offset(kind) + j] == CellOf(kind, Field(d, headers[j]))
    {
      LineCellAt(kind, d, headers, j);
    }
  }

  lemma LineCellAt(kind: BackupKind, d: Doc, headers: seq<string>, j: nat)
    requires j < |headers|
    ensures LineOf(kind, d, headers)[Offset(kind) + j] == CellOf(kind, Field(d, headers[j]))
  {
    var row := RowOf(kind, d, headers);
    var columns := Columns(kind, headers);
    LineAt(row, columns, Offset(kind) + j);
    assert columns[Offset(kind) + j] == headers[j];
    RowAfterShape(kind, d, BaseRow(kind, d, OrElse(d.parentPath, "")), headers);
    assert headers[j] in headers;
  }

  /**
   * The leading columns hold the document id and, for categories, the
   * owning path, unless a field of the same name overwrote them: a
   * document field named "id" replaces the id in the first column.
   */
  lemma LineLeadingCells(kind: BackupKind, d: Doc, headers: seq<string>)
    requires kind == CategoryBackup ==> d.parentPath.Some?
    ensures "id" !in headers ==> LineOf(kind, d, headers)[0] == Text(d.id)
    ensures "id" in headers ==> LineOf(kind, d, headers)[0] == CellOf(kind, Field(d, "id"))
    ensures kind == CategoryBackup && "parentPath" !in headers ==> LineOf(kind, d, headers)[1] == Text(d.parentPath.value)
  {
    RowAfterShape(kind, d, BaseRow(kind, d, OrElse(d.parentPath, "")), headers);
    LineAt(RowOf(kind, d, headers), Columns(kind, headers), 0);
    if kind == CategoryBackup {
      LineAt(RowOf(kind, d, headers), Columns(kind, headers), 1);
    }
  }

  // ------------------------------------------------------------ the command line

  const ModePrefix: string := "--mode="

  /** `s.split('=')[0]`: the text before the first '='. */
  function BeforeEquals(s: string): (r: string)
    ensures r <= s && '=' !in r
    ensures |r| < |s| ==> s[|r|] == '='
  {
    if s == [] || s[0] == '=' then [] else [s[0]] + BeforeEquals(s[1..])
  }

  /**
   * `args.find(arg => arg.startsWith('--mode='))`, then `split('=')[1]`:
   * the text between the prefix's '=' and the next one; "default" when no
   * argument has the prefix.
   */
  function ModeOf(args: seq<string>): (m: string)
    ensures (exists i :: 0 <= i < |args| && ModePrefix <= args[i] && (forall k :: 0 <= k < i ==> !(ModePrefix <= args[k]))
                         && m == BeforeEquals(args[i][|ModePrefix|..]))
            || ((forall k :: 0 <= k < |args| ==> !(ModePrefix <= args[k])) && m == "default")
  {
    if args == [] then "default"
    else if ModePrefix <= args[0] then BeforeEquals(args[0][|ModePrefix|..])
    else
      var m := ModeOf(args[1..]);
      assert forall k :: 0 < k < |args| ==> args[k] == args[1..][k - 1];
      if exists i :: 0 <= i < |args[1..]| && ModePrefix <= args[1..][i] && (forall k :: 0 <= k < i ==> !(ModePrefix <= args[1..][k]))
                     && m == BeforeEquals(args[1..][i][|ModePrefix|..]) then
        var i :| 0 <= i < |args[1..]| && ModePrefix <= args[1..][i] && (forall k :: 0 <= k < i ==> !(ModePrefix <= args[1..][k]))
                 && m == BeforeEquals(args[1..][i][|ModePrefix|..]);
        assert ModePrefix <= args[i + 1] && m == BeforeEquals(args[i + 1][|ModePrefix|..]);
        m
      else
        m
  }

  /** The mode is read from the first `--mode=` argument; later ones are ignored. */
  lemma {:induction false} FirstModeArgument(args: seq<string>, i: nat)
    requires i < |args| && ModePrefix <= args[i]
    requires forall k :: 0 <= k < i ==> !(ModePrefix <= args[k])
    ensures ModeOf(args) == BeforeEquals(args[i][|ModePrefix|..])
  {
    if i > 0 {
      assert !(ModePrefix <= args[0]);
      FirstModeArgument(args[1..], i - 1);
    }
  }

  /** With no `--mode=` argument the mode is "default". */
  lemma {:induction false} NoModeArgument(args: seq<string>)
    requires forall k :: 0 <= k < |args| ==> !(ModePrefix <= args[k])
    ensures ModeOf(args) == "default"
  {
    if args != [] {
      assert !(ModePrefix <= args[0]);
      NoModeArgument(args[1..]);
    }
  }

  /** A first mode argument "--mode=backup" selects the backup, as does "--mode=backup=…". */
  lemma BackupArgument(args: seq<string>, i: nat, rest: string)
    requires i < |args| && args[i] == ModePrefix + "backup" + rest && (rest == [] || rest[0] == '=')
    requires forall k :: 0 <= k < i ==> !(ModePrefix <= args[k])
    ensures ModeOf(args) == "backup"
  {
    var value := "backup" + rest;
    assert args[i] == ModePrefix + value;
    AfterPrefix(ModePrefix, value);
    FirstModeArgument(args, i);
    BeforeEqualsOf("backup", rest);
  }

  lemma AfterPrefix(p: string, s: string)
    ensures p <= p + s && (p + s)[|p|..] == s
  {
  }

  /** `split('=')[0]` of a text without '=' followed by nothing or by '=' is that text. */
  lemma {:induction false} BeforeEqualsOf(w: string, rest: string)
    requires '=' !in w && (rest == [] || rest[0] == '=')
    ensures BeforeEquals(w + rest) == w
  {
    if w == [] {
      assert w + rest == rest;
    } else {
      assert (w + rest)[0] == w[0] && (w + rest)[1..] == w[1..] + rest;
      assert w[0] in w;
      BeforeEqualsOf(w[1..], rest);
      assert [w[0]] + w[1..] == w;
    }
  }

  /**
   * The script's main path: in backup mode the transaction backup runs,
   * then (if it did not fail) the category backup; the exit code is 1 when
   * either fails. Any other mode does nothing and exits with 0. The
   * search routes are defined but no server is started.
   */
  method RunScript(args: seq<string>, transactions: Option<seq<Doc>>, categories: Option<seq<Doc>>)
    returns (backups: seq<BackupOutcome>, exitCode: int)
    ensures ModeOf(args) != "backup" ==> backups == [] && exitCode == 0
    ensures ModeOf(args) == "backup" ==> 1 <= |backups| <= 2
    ensures ModeOf(args) == "backup" && |backups| == 2 ==> !backups[0].BackupFailed?
    ensures ModeOf(args) == "backup" ==> (exitCode == 0 <==> forall b :: b in backups ==> !b.BackupFailed?)
    ensures ModeOf(args) == "backup" && transactions.Some? && categories.Some? ==>
              (transactions.value == [] ==> |backups| == 2)
    ensures exitCode == 0 || exitCode == 1
    ensures ModeOf(args) == "backup" ==>
              BackupResult(TransactionBackup, transactions, backups[0])
              && (|backups| == 2 <==> !backups[0].BackupFailed?)
              && (|backups| == 2 ==> BackupResult(CategoryBackup, categories, backups[1]))
  {
    var mode := ModeOf(args);
    if mode != "backup" {
      return [], 0;
    }
    var first := Backup(TransactionBackup, transactions);
    if first.BackupFailed? {
      return [first], 1;
    }
    var second := Backup(CategoryBackup, categories);
    backups := [first, second];
    exitCode := if second.BackupFailed? then 1 else 0;
  }
}
