/**
 * The department insert handler (`addDepartment`): normalise the two accepted
 * body shapes into one column -> value record, refuse empty records and unsafe
 * column identifiers, build a positional-parameter INSERT, run it against the
 * department table and map the outcome to an HTTP status.
 */
module Department {
  import opened Text
  import opened Json
  import opened Http

  // ---------------------------------------------------------------------------
  // Body normalisation

  /** The record to insert, or `None` when neither accepted body shape is present:
      a `data` object wins; otherwise the legacy `departmentEnglish` /
      `departmentArabic` pair is renamed to `name` / `arabic_name`. */
  function Normalise(body: seq<Field>): (r: Option<seq<Field>>)
    ensures var data := Lookup(body, "data");
            r.None? <==>
              !(Truthy(data) && IsObjectLike(data)) &&
              !Truthy(Lookup(body, "departmentEnglish")) && !Truthy(Lookup(body, "departmentArabic"))
    ensures var data := Lookup(body, "data");
            Truthy(data) && IsObjectLike(data) ==> r == Some(Entries(data))
    ensures var data := Lookup(body, "data");
            !(Truthy(data) && IsObjectLike(data)) && r.Some? ==>
              Keys(r.value) == ["name", "arabic_name"] &&
              r.value[0].val == Lookup(body, "departmentEnglish") &&
              r.value[1].val == Lookup(body, "departmentArabic")
  {
    var data := Lookup(body, "data");
    var english := Lookup(body, "departmentEnglish");
    var arabic := Lookup(body, "departmentArabic");
    if Truthy(data) && IsObjectLike(data) then Some(Entries(data))
    else if Truthy(english) || Truthy(arabic) then
      Some([Field("name", english), Field("arabic_name", arabic)])
    else None
  }

  // ---------------------------------------------------------------------------
  // Column identifier safety

  predicate WordChar(c: char) {
    'a' <= c <= 'z' || 'A' <= c <= 'Z' || '0' <= c <= '9' || c == '_'
  }

  /** `/^[a-zA-Z0-9_]+$/.test(column)`. */
  predicate ValidColumn(column: string) {
    |column| > 0 && forall i | 0 <= i < |column| :: WordChar(column[i])
  }

  /** The index of the first column that fails the allow-list, in key order. */
  function FirstInvalid(columns: seq<string>): (r: Option<nat>)
    ensures r.None? <==> forall i | 0 <= i < |columns| :: ValidColumn(columns[i])
    ensures r.Some? ==> r.value < |columns| && !ValidColumn(columns[r.value])
    ensures r.Some? ==> forall i | 0 <= i < r.value :: ValidColumn(columns[i])
  {
    if |columns| == 0 then None
    else if !ValidColumn(columns[0]) then Some(0)
    else match FirstInvalid(columns[1..])
      case None => None
      case Some(k) => Some(k + 1)
  }

  /** The validation loop: stops at the first offending column. */
  method FindInvalidColumn(columns: seq<string>) returns (r: Option<nat>)
    ensures r == FirstInvalid(columns)
  {
    var i := 0;
    while i < |columns|
      invariant 0 <= i <= |columns|
      invariant forall j | 0 <= j < i :: ValidColumn(columns[j])
    {
      if !ValidColumn(columns[i]) {
        return Some(i);
      }
      i := i + 1;
    }
    return None;
  }

  // ---------------------------------------------------------------------------
  // Query construction

  /** `$1, ..., $n`: the placeholder at position `i` is `$` and the decimal
      text of `i + 1`, so it names bound parameter number `i + 1`, that is
      `values[i]`. */
  function Placeholders(n: nat): (ps: seq<string>)
    ensures |ps| == n
    ensures forall i | 0 <= i < n ::
              |ps[i]| > 1 && ps[i][0] == '$' && AllDigits(ps[i][1..]) && ParseDigits(ps[i][1..]) == i + 1
  {
    PlaceholderDigits(n);
    seq(n, i requires 0 <= i < n => "$" + NatToString(i + 1))
  }

  lemma PlaceholderDigits(n: nat)
    ensures forall k: nat | 1 <= k <= n :: ("$" + NatToString(k))[1..] == NatToString(k)
    ensures forall k: nat | 1 <= k <= n :: ParseDigits(NatToString(k)) == k
  {
    forall k: nat | 1 <= k <= n ensures ParseDigits(NatToString(k)) == k {
      ParseNatToString(k);
    }
  }

  /** Column `i` receives value `i` and no other: no two placeholders name the
      same parameter. */
  lemma PlaceholdersDistinct(n: nat)
    ensures forall i, j | 0 <= i < j < n :: Placeholders(n)[i] != Placeholders(n)[j]
  {
    var ps := Placeholders(n);
    forall i, j | 0 <= i < j < n ensures ps[i] != ps[j] {
      assert ParseDigits(ps[i][1..]) != ParseDigits(ps[j][1..]);
    }
  }

  function Quote(column: string): string {
    "\"" + column + "\""
  }

  /** The quoted identifiers, in column order. An allow-listed column is
      enclosed by its quotes: its text sits between them, and the first quote
      after the opening one is the closing one. */
  function QuotedColumns(columns: seq<string>): (qs: seq<string>)
    ensures |qs| == |columns|
    ensures forall i | 0 <= i < |columns| && ValidColumn(columns[i]) ::
              |qs[i]| == |columns[i]| + 2 && qs[i][1..|qs[i]| - 1] == columns[i] &&
              QuoteFrom(qs[i], 1) == |qs[i]| - 1
  {
    QuotesEnclose(columns);
    seq(|columns|, i requires 0 <= i < |columns| => Quote(columns[i]))
  }

  lemma QuotesEnclose(columns: seq<string>)
    ensures forall i | 0 <= i < |columns| && ValidColumn(columns[i]) ::
              QuoteFrom(Quote(columns[i]), 1) == |columns[i]| + 1
  {
    forall i | 0 <= i < |columns| && ValidColumn(columns[i])
      ensures QuoteFrom(Quote(columns[i]), 1) == |columns[i]| + 1
    {
      ValidColumnUnquoted(columns[i]);
      assert Quote(columns[i]) == "\"" + columns[i] + "\"" + "";
      QuoteFromQuoted(columns[i], "", 1);
    }
  }

  /** The column list as it appears between the parentheses of the INSERT. */
  function ColumnList(columns: seq<string>): string {
    Join(QuotedColumns(columns), ", ")
  }

  /** The statement text handed to the driver, with the values bound separately. */
  function QueryText(columns: seq<string>): string {
    "\n        INSERT INTO department (" + ColumnList(columns) +
    ")\n        VALUES (" + Join(Placeholders(|columns|), ", ") +
    ")\n        RETURNING *\n      "
  }

  /** The index of the first double quote at or after `k` (or the length). */
  function QuoteFrom(s: string, k: nat): nat
    requires k <= |s|
    decreases |s| - k
  {
    if k == |s| then k else if s[k] == '"' then k else QuoteFrom(s, k + 1)
  }

  lemma {:induction false} QuoteFromQuoted(x: string, t: string, k: nat)
    requires '"' !in x && 1 <= k <= |x| + 1
    ensures QuoteFrom("\"" + x + "\"" + t, k) == |x| + 1
    decreases |x| + 1 - k
  {
    var s := "\"" + x + "\"" + t;
    if k <= |x| {
      assert s[k] == x[k - 1];
      QuoteFromQuoted(x, t, k + 1);
    }
  }

  lemma QuotedPrefix(x: string, y: string, t1: string, t2: string)
    requires '"' !in x && '"' !in y
    requires "\"" + x + "\"" + t1 == "\"" + y + "\"" + t2
    ensures x == y && t1 == t2
  {
    var s := "\"" + x + "\"" + t1;
    QuoteFromQuoted(x, t1, 1);
    QuoteFromQuoted(y, t2, 1);
    assert x == s[1..|x| + 1];
    assert y == s[1..|y| + 1];
    assert t1 == s[|x| + 2..];
  }

  lemma ValidColumnUnquoted(c: string)
    requires ValidColumn(c)
    ensures '"' !in c
  {
  }

  /** The column list is the first quoted column, then the rest after `, `. */
  lemma ColumnListCons(a: seq<string>)
    requires |a| > 0
    ensures ColumnList(a) == "\"" + a[0] + "\"" + (if |a| == 1 then "" else ", " + ColumnList(a[1..]))
  {
    var qa := QuotedColumns(a);
    assert qa[0] == Quote(a[0]);
    assert qa[1..] == QuotedColumns(a[1..]);
  }

  /** Once every column passed the allow-list, the column list of the statement
      determines the columns: no identifier can close its quotes and smuggle in
      another one. */
  lemma {:induction false} ColumnListInjective(a: seq<string>, b: seq<string>)
    requires forall i | 0 <= i < |a| :: ValidColumn(a[i])
    requires forall i | 0 <= i < |b| :: ValidColumn(b[i])
    requires ColumnList(a) == ColumnList(b)
    ensures a == b
    decreases |a|
  {
    if |a| == 0 || |b| == 0 {
      return;
    }
    ValidColumnUnquoted(a[0]);
    ValidColumnUnquoted(b[0]);
    var ta := if |a| == 1 then "" else ", " + ColumnList(a[1..]);
    var tb := if |b| == 1 then "" else ", " + ColumnList(b[1..]);
    ColumnListCons(a);
    ColumnListCons(b);
    QuotedPrefix(a[0], b[0], ta, tb);
    if |a| == 1 || |b| == 1 {
      assert |a| == 1 && |b| == 1;
      assert a == [a[0]] && b == [b[0]];
    } else {
      assert ColumnList(a[1..]) == ta[2..];
      ColumnListInjective(a[1..], b[1..]);
      assert a == [a[0]] + a[1..] && b == [b[0]] + b[1..];
    }
  }

  lemma JoinFirst(parts: seq<string>, sep: string)
    requires |parts| > 0
    ensures Join(parts, sep)[..|parts[0]|] == parts[0]
  {
  }

  // ---------------------------------------------------------------------------
  // The gates before the query

  /** What the handler does before touching the database: refuse with a
      response, or run the INSERT of a record. */
  datatype Plan = Refuse(response: Response) | Run(record: seq<Field>)

  function Prepare(body: seq<Field>): (p: Plan)
    ensures p.Run? <==>
              Normalise(body).Some? && |Normalise(body).value| > 0 &&
              forall i | 0 <= i < |Normalise(body).value| :: ValidColumn(Normalise(body).value[i].key)
    ensures p.Run? ==> p.record == Normalise(body).value
    ensures p.Refuse? ==> p.response.code == 400 && p.response.status == "failure" && p.response.result == Null
    ensures Normalise(body).None? ==> p.Refuse? && p.response.message == "Data missing or invalid format"
    ensures Normalise(body) == Some([]) ==> p.Refuse? && p.response.message == "No data fields provided for insertion"
    ensures Normalise(body).Some? && |Normalise(body).value| > 0 ==>
              var columns := Keys(Normalise(body).value);
              FirstInvalid(columns).Some? ==>
                p.Refuse? && p.response.message == "Invalid column name: " + columns[FirstInvalid(columns).value]
  {
    match Normalise(body)
    case None => Refuse(Failure(400, "Data missing or invalid format", Null))
    case Some(record) =>
      if |record| == 0 then Refuse(Failure(400, "No data fields provided for insertion", Null))
      else
        var columns := Keys(record);
        match FirstInvalid(columns)
        case Some(k) => Refuse(Failure(400, "Invalid column name: " + columns[k], Null))
        case None => Run(record)
  }

  // ---------------------------------------------------------------------------
  // Outcome mapping

  /** `result[0] || result`. */
  function FirstOrAll(returned: seq<Value>): Value {
    if |returned| > 0 then Or(returned[0], Arr(returned)) else Arr(returned)
  }

  /** The catch block: a unique violation is a conflict, anything else is internal. */
  function ErrorResponse(e: DbError): (r: Response)
    ensures r.code == 409 <==> e.code == UniqueViolation
    ensures r.code != 409 ==> r.code == 500 && r.result == MessageOrError(e)
    ensures r.code == 409 ==> r.result == Or(e.detail, ErrorValue(e))
    ensures r.status == "failure"
  {
    if e.code == UniqueViolation then
      Failure(409, "Department with this identifier already exists", Or(e.detail, ErrorValue(e)))
    else
      Failure(500, "Error adding department", MessageOrError(e))
  }

  /** The answer for what the driver returned. */
  function Respond(out: QueryOutcome): (r: Response)
    ensures out.Rows? && |out.rows| > 0 && out.rows[0].Obj? ==>
              r == Success(201, "Department added successfully", out.rows[0])
    ensures out.Error? ==> r == ErrorResponse(out.err)
  {
    match out
    case Rows(rows) => Success(201, "Department added successfully", FirstOrAll(rows))
    case Error(e) => ErrorResponse(e)
  }

  // ---------------------------------------------------------------------------
  // The department table

  datatype QueryOutcome = Rows(rows: seq<Value>) | Error(err: DbError)

  /** A non-null value that can clash under a unique constraint. */
  predicate Present(v: Value) {
    !(v.Null? || v.Undefined?)
  }

  /** The first field of `record` on a unique column whose value some row already holds. */
  function Clash(rows: seq<seq<Field>>, unique: set<string>, record: seq<Field>): (r: Option<Field>)
    ensures r.Some? ==> r.value in record && r.value.key in unique && Present(r.value.val)
    ensures r.Some? ==> exists row | row in rows :: Lookup(row, r.value.key) == r.value.val
    ensures r.None? ==> forall f, row | f in record && row in rows && f.key in unique && Present(f.val) ::
                          Lookup(row, f.key) != f.val
  {
    if |record| == 0 then None
    else
      var f := record[0];
      if f.key in unique && Present(f.val) && exists row | row in rows :: Lookup(row, f.key) == f.val
      then Some(f)
      else Clash(rows, unique, record[1..])
  }

  /** PostgreSQL's detail line for a unique violation. */
  function ClashDetail(f: Field): Value {
    Str("Key (" + f.key + ")=(" + Display(f.val) + ") already exists.")
  }

  /** What the INSERT does to a table holding `rows`: a driver or server failure
      (`fault`) or a unique clash leaves it alone; otherwise the record is
      stored and returned as submitted. */
  function InsertOutcome(rows: seq<seq<Field>>, unique: set<string>, record: seq<Field>,
                         fault: Option<DbError>): QueryOutcome
  {
    if fault.Some? then Error(fault.value)
    else match Clash(rows, unique, record)
      case Some(f) =>
        Error(DbError(UniqueViolation, "duplicate key value violates unique constraint", ClashDetail(f)))
      case None => Rows([Obj(record)])
  }

  /** No two rows share a present value on a unique column. */
  ghost predicate UniqueHolds(rows: seq<seq<Field>>, unique: set<string>) {
    forall i, j, c | 0 <= i < |rows| && 0 <= j < |rows| && i != j && c in unique ::
      Present(Lookup(rows[i], c)) ==> Lookup(rows[i], c) != Lookup(rows[j], c)
  }

  lemma {:induction false} LookupFound(fields: seq<Field>, k: string)
    requires Lookup(fields, k) != Undefined
    ensures exists f | f in fields :: f.key == k && f.val == Lookup(fields, k)
  {
    if fields[0].key != k {
      LookupFound(fields[1..], k);
      var f :| f in fields[1..] && f.key == k && f.val == Lookup(fields[1..], k);
      assert f in fields;
    }
  }

  lemma ClashFreeKey(rows: seq<seq<Field>>, unique: set<string>, record: seq<Field>,
                     row: seq<Field>, c: string)
    requires Clash(rows, unique, record).None?
    requires row in rows && c in unique && Present(Lookup(row, c))
    ensures Lookup(row, c) != Lookup(record, c)
  {
    if Lookup(record, c) != Undefined {
      LookupFound(record, c);
    }
  }

  /** A successful insert keeps the unique constraints of the table. */
  lemma InsertKeepsUnique(rows: seq<seq<Field>>, unique: set<string>, record: seq<Field>)
    requires UniqueHolds(rows, unique)
    requires Clash(rows, unique, record).None?
    ensures UniqueHolds(rows + [record], unique)
  {
    var rows' := rows + [record];
    forall i, j, c | 0 <= i < |rows'| && 0 <= j < |rows'| && i != j && c in unique &&
                     Present(Lookup(rows'[i], c))
      ensures Lookup(rows'[i], c) != Lookup(rows'[j], c)
    {
      if i == |rows| {
        LookupFound(record, c);
        assert rows'[j] in rows;
      } else if j == |rows| {
        ClashFreeKey(rows, unique, record, rows'[i], c);
      }
    }
  }

  class DepartmentTable {
    var rows: seq<seq<Field>>
    const unique: set<string>

    ghost predicate Valid()
      reads this
    {
      UniqueHolds(rows, unique)
    }

    constructor (unique: set<string>)
      ensures Valid() && rows == [] && this.unique == unique
    {
      rows := [];
      this.unique := unique;
    }

    /** Execute the INSERT ... RETURNING * of `record`. */
    method Insert(record: seq<Field>, fault: Option<DbError>) returns (out: QueryOutcome)
      requires Valid()
      modifies this
      ensures Valid()
      ensures out == InsertOutcome(old(rows), unique, record, fault)
      ensures rows == if out.Rows? then old(rows) + [record] else old(rows)
    {
      out := InsertOutcome(rows, unique, record, fault);
      if out.Rows? {
        InsertKeepsUnique(rows, unique, record);
        rows := rows + [record];
      }
    }
  }

  // ---------------------------------------------------------------------------
  // The handler

  /** `addDepartment`: the gates, then the INSERT, then the status mapping.
      `fault` stands for whatever the driver or server may fail with besides a
      unique violation. */
  method AddDepartment(db: DepartmentTable, body: seq<Field>, fault: Option<DbError>)
    returns (response: Response, queryText: Option<string>)
    requires db.Valid()
    modifies db
    ensures db.Valid()
    ensures Prepare(body).Refuse? ==>
              response == Prepare(body).response && queryText == None && db.rows == old(db.rows)
    ensures Prepare(body).Run? ==>
              var record := Prepare(body).record;
              var out := InsertOutcome(old(db.rows), db.unique, record, fault);
              response == Respond(out) && queryText == Some(QueryText(Keys(record))) &&
              db.rows == (if out.Rows? then old(db.rows) + [record] else old(db.rows))
  {
    var normalised := Normalise(body);
    if normalised.None? {
      return Failure(400, "Data missing or invalid format", Null), None;
    }
    var record := normalised.value;
    if |record| == 0 {
      return Failure(400, "No data fields provided for insertion", Null), None;
    }
    var columns := Keys(record);
    var bad := FindInvalidColumn(columns);
    if bad.Some? {
      return Failure(400, "Invalid column name: " + columns[bad.value], Null), None;
    }
    var text := QueryText(columns);
    var out := db.Insert(record, fault);
    response := Respond(out);
    queryText := Some(text);
  }

  /** A department whose unique `name` is already taken is answered with 409 and
      no row is added. */
  lemma DuplicateIsConflict(rows: seq<seq<Field>>, unique: set<string>, body: seq<Field>)
    requires Prepare(body).Run?
    requires Clash(rows, unique, Prepare(body).record).Some?
    ensures Respond(InsertOutcome(rows, unique, Prepare(body).record, None)).code == 409
    ensures !InsertOutcome(rows, unique, Prepare(body).record, None).Rows?
  {
  }

  /** A created department is answered with 201 and the row the INSERT
      returned, passed on unchanged. The modelled table returns the record as
      submitted, so that row holds every submitted column with its submitted
      value. */
  lemma CreatedRowEchoesRecord(rows: seq<seq<Field>>, unique: set<string>, body: seq<Field>, i: nat)
    requires Prepare(body).Run?
    requires Clash(rows, unique, Prepare(body).record).None?
    requires i < |Prepare(body).record|
    requires forall j | 0 <= j < i :: Prepare(body).record[j].key != Prepare(body).record[i].key
    ensures var r := Respond(InsertOutcome(rows, unique, Prepare(body).record, None));
            r.code == 201 && r.result.Obj? &&
            Lookup(r.result.fields, Prepare(body).record[i].key) == Prepare(body).record[i].val
  {
    LookupFirst(Prepare(body).record, Prepare(body).record[i].key, i);
  }
}
