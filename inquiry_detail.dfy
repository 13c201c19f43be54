/** The inquiry detail page: the status timeline, the CSV export of the
    technical specifications, the shortened names in its tables, the total
    sent with a quotation, and the checks and error handling around loading
    an inquiry. */
module InquiryDetail {
  import opened Strings

  /** `s || d` for a text that may be missing (the empty string). */
  function Or(s: string, d: string): string {
    if s != "" then s else d
  }

  /** The entries of the status timeline. */
  datatype Event = InquiryCreated | UnderReview | QuotationReady | OrderCreated

  /** `generateTimeline`: creation always; review and quotation once
      quoted; the order on top once an order exists. */
  method Timeline(status: string) returns (t: seq<Event>)
    ensures |t| >= 1 && t[0] == InquiryCreated
    ensures status == "quoted" ==> t == [InquiryCreated, UnderReview, QuotationReady]
    ensures status == "order_created" ==> t == [InquiryCreated, UnderReview, QuotationReady, OrderCreated]
    ensures status != "quoted" && status != "order_created" ==> t == [InquiryCreated]
    ensures OrderCreated in t <==> status == "order_created"
  {
    t := [InquiryCreated];
    if status == "quoted" || status == "order_created" {
      t := t + [UnderReview];
      t := t + [QuotationReady];
    }
    if status == "order_created" {
      t := t + [OrderCreated];
    }
  }

  /** A name shortened to its first `n` characters followed by "...". */
  function Truncate(s: string, n: nat): (r: string)
    ensures |s| <= n ==> r == s
    ensures |s| > n ==> |r| == n + 3 && r[..n] == s[..n] && r[n..] == "..."
  {
    if |s| > n then s[..n] + "..." else s
  }

  /** Shortening is never longer than the limit plus the dots, keeps the
      start of the name, and shortening again changes nothing. */
  lemma TruncateProperties(s: string, n: nat)
    ensures |Truncate(s, n)| <= n + 3
    ensures |s| > n ==> Truncate(s, n)[..n] == s[..n]
    ensures Truncate(Truncate(s, n), n) == Truncate(s, n)
  {
    var r := Truncate(s, n);
    if |s| > n {
      assert Truncate(r, n) == r[..n] + "...";
      assert r == s[..n] + "...";
    }
  }

  /** An item of the specifications table. Absent text is the empty
      string; `quantity` None is an absent quantity. */
  datatype Spec = Spec(partRef: string, partName: string, fileName: string, material: string,
                       thickness: string, grade: string, quantity: Option<int>, unitPrice: Option<int>,
                       remarks: string)

  /** An uploaded file of the inquiry. */
  datatype FileEntry = FileEntry(originalName: string, name: string)

  /** The part label of the specifications table: at most ten characters
      before the dots. */
  function PartLabel(s: Spec): (r: string)
    ensures |r| <= 13
  {
    TruncateProperties(Or(s.partRef, Or(s.fileName, "N/A")), 10);
    Truncate(Or(s.partRef, Or(s.fileName, "N/A")), 10)
  }

  /** The file label of the file list: at most thirty characters before
      the dots. */
  function FileLabel(f: FileEntry): (r: string)
    ensures |r| <= 33
  {
    TruncateProperties(Or(f.originalName, Or(f.name, "N/A")), 30);
    Truncate(Or(f.originalName, Or(f.name, "N/A")), 30)
  }

  /** `q || 'N/A'` printed: a missing or zero quantity reads N/A. */
  function QuantityText(q: Option<int>): string {
    if q.Some? && q.value != 0 then IntToString(q.value) else "N/A"
  }

  /** The six CSV columns of a specification, with their defaults. */
  function Columns(s: Spec): (r: seq<string>)
    ensures |r| == 6
    ensures r[0] == Or(s.partRef, Or(s.partName, Or(s.fileName, "N/A")))
    ensures r[1] != "" && r[2] != "" && r[3] != "" && r[4] != "" && r[5] != ""
  {
    [Or(s.partRef, Or(s.partName, Or(s.fileName, "N/A"))), Or(s.material, "N/A"), Or(s.thickness, "N/A"),
     Or(s.grade, "N/A"), QuantityText(s.quantity), Or(s.remarks, "No remarks")]
  }

  /** Fields each wrapped in double quotes, separated by commas. */
  function Quoted(fields: seq<string>): string {
    if |fields| == 0 then ""
    else if |fields| == 1 then "\"" + fields[0] + "\""
    else "\"" + fields[0] + "\"" + ("," + Quoted(fields[1..]))
  }

  /** The pieces at odd positions: the quoted parts of a split line. */
  function OddPieces(ps: seq<string>): (r: seq<string>)
    decreases |ps|
  {
    if |ps| < 2 then [] else [ps[1]] + OddPieces(ps[2..])
  }

  /** Reading a line back: the texts between quote pairs. */
  function Unquote(line: string): seq<string> {
    OddPieces(Split(line, '"'))
  }

  predicate NoQuote(fields: seq<string>) {
    forall i :: 0 <= i < |fields| ==> '"' !in fields[i]
  }

  /** The pieces a quoted line splits into at its double quotes, after
      the empty piece before the first quote: each field, then the comma
      that follows it or, after the last field, the empty rest. */
  function Pieces(fields: seq<string>): seq<string>
    requires |fields| > 0
  {
    if |fields| == 1 then [fields[0], ""] else [fields[0], ","] + Pieces(fields[1..])
  }

  /** A field between quotes, then what follows the closing quote. */
  lemma SplitQuotedField(f: string, rest: string)
    requires '"' !in f
    ensures Split("\"" + f + "\"" + rest, '"') == ["", f] + Split(rest, '"')
  {
    var s := "\"" + f + "\"" + rest;
    assert s[1..] == f + ['"'] + rest;
    SplitConcat(f, rest, '"');
    SplitWithoutSeparator(f, '"');
  }

  /** A comma before the next quoted field stays a piece of its own. */
  lemma SplitCommaQuote(q: string)
    requires |q| > 0 && q[0] == '"'
    ensures Split("," + q, '"') == [","] + Split(q, '"')[1..]
  {
    var r := Split(q, '"');
    assert r == [""] + Split(q[1..], '"');
    assert ("," + q)[0] == ',' && ("," + q)[1..] == q;
    assert [','] + r[0] == ",";
  }

  /** One more field in front of a quoted line adds that field and the
      comma to its pieces. */
  lemma SplitQuotedCons(f: string, q: string, ps: seq<string>)
    requires '"' !in f && |q| > 0 && q[0] == '"' && Split(q, '"') == [""] + ps
    ensures Split("\"" + f + "\"" + ("," + q), '"') == ["", f] + ([","] + ps)
  {
    SplitQuotedField(f, "," + q);
    SplitCommaQuote(q);
    assert Split(q, '"')[1..] == ps;
  }

  lemma {:induction false} SplitQuoted(fields: seq<string>)
    requires |fields| > 0 && NoQuote(fields)
    ensures Split(Quoted(fields), '"') == [""] + Pieces(fields)
  {
    var f := fields[0];
    if |fields| == 1 {
      SplitQuotedField(f, "");
      assert "\"" + f + "\"" + "" == Quoted(fields);
    } else {
      var rest := fields[1..];
      assert NoQuote(rest) by {
        forall i | 0 <= i < |rest| ensures '"' !in rest[i] {
          assert rest[i] == fields[i + 1];
        }
      }
      SplitQuoted(rest);
      QuotedStartsWithQuote(rest);
      SplitQuotedCons(f, Quoted(rest), Pieces(rest));
      assert ["", f] + ([","] + Pieces(rest)) == [""] + Pieces(fields);
    }
  }

  lemma {:induction false} OddOfPieces(fields: seq<string>)
    requires |fields| > 0
    ensures OddPieces([""] + Pieces(fields)) == fields
  {
    if |fields| > 1 {
      var rest := fields[1..];
      OddOfPieces(rest);
      assert ([""] + Pieces(fields))[2..] == [","] + Pieces(rest);
      OddIgnoresHead(",", "", Pieces(rest));
    }
  }

  /** Quoting is undone by reading the line back, as long as no field
      contains a double quote itself. */
  lemma UnquoteQuoted(fields: seq<string>)
    requires NoQuote(fields)
    ensures Unquote(Quoted(fields)) == fields
  {
    if |fields| > 0 {
      SplitQuoted(fields);
      OddOfPieces(fields);
    }
  }

  lemma OddIgnoresHead(a: string, b: string, xs: seq<string>)
    ensures OddPieces([a] + xs) == OddPieces([b] + xs)
  {
    if |xs| >= 1 {
      assert ([a] + xs)[2..] == xs[1..] == ([b] + xs)[2..];
    }
  }

  lemma QuotedStartsWithQuote(fields: seq<string>)
    requires |fields| > 0
    ensures |Quoted(fields)| > 0 && Quoted(fields)[0] == '"'
  {
  }

  /** One CSV line per specification. */
  function CsvRow(s: Spec): string {
    Quoted(Columns(s)) + "\n"
  }

  /** The lines of a list, each produced by `line`, in order. */
  function Lines<T>(line: T -> string, xs: seq<T>): string {
    if |xs| == 0 then "" else Lines(line, xs[..|xs| - 1]) + line(xs[|xs| - 1])
  }

  lemma {:induction false} LinesAppend<T>(line: T -> string, a: seq<T>, b: seq<T>)
    ensures Lines(line, a + b) == Lines(line, a) + Lines(line, b)
  {
    if |b| == 0 {
      assert a + b == a;
    } else {
      var b' := b[..|b| - 1];
      assert (a + b)[..|a + b| - 1] == a + b';
      assert (a + b)[|a + b| - 1] == b[|b| - 1];
      LinesAppend(line, a, b');
    }
  }

  /** The lines of the specifications, in order. */
  function CsvRows(specs: seq<Spec>): string {
    Lines(CsvRow, specs)
  }

  /** The rows of two lists are the rows of the first, then those of the
      second. */
  lemma CsvRowsAppend(a: seq<Spec>, b: seq<Spec>)
    ensures CsvRows(a + b) == CsvRows(a) + CsvRows(b)
  {
    LinesAppend(CsvRow, a, b);
  }

  /** The export's header: what identifies the inquiry. */
  datatype CsvHeader = CsvHeader(inquiryNumber: string, id: string, createdAt: string, customerName: string)

  function CsvPrefix(h: CsvHeader): string {
    "data:text/csv;charset=utf-8," + "INQUIRY: " + Or(h.inquiryNumber, h.id) + "\n"
    + "CREATED: " + h.createdAt + "\n" + "CUSTOMER: " + Or(h.customerName, "N/A") + "\n\n"
    + "TECHNICAL SPECIFICATIONS\n\n" + "Part Name,Material,Thickness,Grade,Quantity,Remarks\n"
  }

  function CsvTrailer(count: nat): string {
    "\n" + "\nTotal Parts: " + NatToString(count) + "\n"
    + "\nNote: Download individual files separately from the Uploaded Files section\n"
  }

  /** `handleDownloadExcel`'s text: the header, one line per
      specification or a placeholder line when there are none, and the
      part count. */
  method ExportCsv(h: CsvHeader, specs: seq<Spec>) returns (csv: string)
    ensures |specs| > 0 ==> csv == CsvPrefix(h) + CsvRows(specs) + CsvTrailer(|specs|)
    ensures |specs| == 0 ==>
      csv == CsvPrefix(h) + "No technical specifications available\n" + CsvTrailer(0)
  {
    var rows := "";
    if |specs| > 0 {
      var i := 0;
      while i < |specs|
        invariant 0 <= i <= |specs|
        invariant rows == CsvRows(specs[..i])
      {
        assert specs[..i + 1][..i] == specs[..i];
        rows := rows + CsvRow(specs[i]);
        i := i + 1;
      }
      assert specs[..i] == specs;
    } else {
      rows := "No technical specifications available\n";
    }
    csv := CsvPrefix(h) + rows + CsvTrailer(|specs|);
  }

  /** Reading a specification's line back gives its six columns. */
  lemma CsvRowReadsBack(s: Spec)
    requires NoQuote(Columns(s))
    ensures Unquote(Quoted(Columns(s))) == Columns(s)
  {
    UnquoteQuoted(Columns(s));
  }

  /** `quantity * (unitPrice || 0)` summed; None is NaN, which an absent
      quantity produces and which then spreads through the sum. */
  function RawTotal(specs: seq<Spec>): Option<int> {
    if |specs| == 0 then Some(0)
    else
      var rest := RawTotal(specs[1..]);
      var q := specs[0].quantity;
      if q.None? || rest.None? then None else Some(q.value * OrZero(specs[0].unitPrice) + rest.value)
  }

  /** Price times quantity over the specifications. */
  function LineSum(specs: seq<Spec>): int
    requires forall i :: 0 <= i < |specs| ==> specs[i].quantity.Some?
  {
    if |specs| == 0 then 0 else specs[0].quantity.value * OrZero(specs[0].unitPrice) + LineSum(specs[1..])
  }

  /** The total sent with a quotation: the sum, with NaN turned into 0. */
  function TotalAmount(specs: seq<Spec>): int {
    OrZero(RawTotal(specs))
  }

  /** The total is price times quantity summed when every quantity is
      present, and 0 as soon as one is missing. */
  lemma {:induction false} TotalAmountMeaning(specs: seq<Spec>)
    ensures |specs| == 0 ==> TotalAmount(specs) == 0
    ensures (forall i :: 0 <= i < |specs| ==> specs[i].quantity.Some?) ==>
      RawTotal(specs) == Some(LineSum(specs))
    ensures (exists i :: 0 <= i < |specs| && specs[i].quantity.None?) ==> RawTotal(specs).None?
    ensures (exists i :: 0 <= i < |specs| && specs[i].quantity.None?) ==> TotalAmount(specs) == 0
  {
    if |specs| > 0 {
      TotalAmountMeaning(specs[1..]);
      if exists i :: 0 <= i < |specs| && specs[i].quantity.None? {
        var i :| 0 <= i < |specs| && specs[i].quantity.None?;
        if i > 0 {
          assert specs[1..][i - 1].quantity.None?;
        }
      }
      if forall i :: 0 <= i < |specs| ==> specs[i].quantity.Some? {
        assert forall i :: 0 <= i < |specs| - 1 ==> specs[1..][i].quantity.Some? by {
          forall i | 0 <= i < |specs| - 1 ensures specs[1..][i].quantity.Some? {
            assert specs[1..][i] == specs[i + 1];
          }
        }
      }
    }
  }

  /** The id of the route names an inquiry: not absent, empty, or the
      text of an unset value. */
  predicate ValidId(id: Option<string>) {
    id.Some? && id.value != "" && id.value != "undefined" && id.value != "null"
  }

  /** Staff roles, and the fixed administrator email, read through the
      administrator API. */
  predicate UsesAdminApi(role: Option<string>, email: Option<string>) {
    role == Some("admin") || role == Some("backoffice") || role == Some("subadmin")
    || email == Some("admin@gmail.com")
  }

  /** What loading an inquiry does before any answer arrives. */
  datatype FetchStep = WaitForUser | RefuseInvalidId | GoToLogin | Request(admin: bool)

  /** `fetchInquiry`'s checks, in order: the user, the id, the token; then
      the request through the API the user's role selects. */
  function FetchPlan(hasUser: bool, id: Option<string>, hasToken: bool,
                     role: Option<string>, email: Option<string>): (r: FetchStep)
    ensures r.Request? <==> hasUser && ValidId(id) && hasToken
    ensures r.Request? ==> (r.admin <==> UsesAdminApi(role, email))
    ensures r == RefuseInvalidId <==> hasUser && !ValidId(id)
    ensures r == GoToLogin <==> hasUser && ValidId(id) && !hasToken
  {
    if !hasUser then WaitForUser
    else if !ValidId(id) then RefuseInvalidId
    else if !hasToken then GoToLogin
    else Request(UsesAdminApi(role, email))
  }

  /** How a failed request is reported. */
  datatype ErrorKind = AuthExpired | AccessDenied | NotFound | ServerError | NetworkError
                     | OtherError(message: string)

  /** The failure's report from its HTTP status, else its error code.
      `message` is the server's message, else the error's own. */
  function ClassifyError(status: Option<int>, code: string, message: string): (r: ErrorKind)
    ensures r == AuthExpired <==> status == Some(401)
    ensures r == AccessDenied <==> status == Some(403)
    ensures r == NotFound <==> status == Some(404)
    ensures r == ServerError <==> status == Some(500)
    ensures r == NetworkError <==> status !in {Some(401), Some(403), Some(404), Some(500)} && code == "ERR_NETWORK"
    ensures r.OtherError? ==> r.message == message
  {
    if status == Some(401) then AuthExpired
    else if status == Some(403) then AccessDenied
    else if status == Some(404) then NotFound
    else if status == Some(500) then ServerError
    else if code == "ERR_NETWORK" then NetworkError
    else OtherError(message)
  }

  /** Only an expired login clears the stored credentials. */
  predicate ClearsCredentials(k: ErrorKind) {
    k == AuthExpired
  }

  lemma OnlyAuthFailureLogsOut(status: Option<int>, code: string, message: string)
    ensures ClearsCredentials(ClassifyError(status, code, message)) <==> status == Some(401)
  {
  }

  /** `handleUploadQuotation`: without a file the upload is refused;
      otherwise the first file is sent. */
  function UploadFile(files: seq<string>): (r: Option<string>)
    ensures r.None? <==> |files| == 0
    ensures r.Some? ==> r.value == files[0]
  {
    if |files| == 0 then None else Some(files[0])
  }
}
