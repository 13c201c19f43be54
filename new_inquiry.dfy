/** The new-inquiry page: the file-type whitelist, turning accepted files
    into table rows with the first active material, editing and deleting
    rows by id, the checks made before submitting, and the API base URL. */
module NewInquiry {
  import opened Strings

  /** `url.replace(/\/api$/, '')`: one trailing `/api` removed. */
  function StripApiSuffix(url: string): (r: string)
    ensures EndsWith(url, "/api") ==> r + "/api" == url
    ensures !EndsWith(url, "/api") ==> r == url
  {
    if EndsWith(url, "/api") then url[..|url| - 4] else url
  }

  /** `getBaseURL`: the configured URL, or the local default when it is
      unset or empty, without its `/api` suffix. */
  function BaseURL(configured: Option<string>): (r: string)
    ensures configured.Some? && configured.value != "" ==> r == StripApiSuffix(configured.value)
    ensures configured.None? || configured.value == "" ==> r == "http://localhost:5000"
  {
    StripApiSuffixOf("http://localhost:5000");
    var url := if configured.Some? && configured.value != "" then configured.value else "http://localhost:5000/api";
    StripApiSuffix(url)
  }

  /** Exactly the suffix is removed: a URL that is something followed by
      `/api` gives that something, and stripping is idempotent unless the
      rest itself ends in `/api`. */
  lemma StripApiSuffixOf(host: string)
    ensures StripApiSuffix(host + "/api") == host
    ensures !EndsWith(host, "/api") ==> StripApiSuffix(StripApiSuffix(host + "/api")) == host
  {
    var url := host + "/api";
    assert url[|url| - 4..] == "/api";
    assert url[..|url| - 4] == host;
  }

  /** `name.split('.').pop().toLowerCase()` */
  function Extension(name: string): string {
    Lower(LastOf(Split(name, '.')))
  }

  /** The extension is what follows the last dot, lower-cased; a name
      without a dot is its own extension. */
  lemma ExtensionOf(base: string, ext: string, plain: string)
    requires '.' !in ext && '.' !in plain
    ensures Extension(base + "." + ext) == Lower(ext)
    ensures Extension(plain) == Lower(plain)
  {
    LastPiece(base, ext, '.');
    SplitWithoutSeparator(plain, '.');
  }

  predicate AllowedExtension(ext: string) {
    ext in ["dwg", "dxf", "zip", "pdf", "xlsx", "xls"]
  }

  predicate Accepted(name: string) {
    AllowedExtension(Extension(name))
  }

  /** The accepted file names, in their original order. */
  function ValidFiles(names: seq<string>): (r: seq<string>)
    ensures |r| <= |names|
    ensures forall n :: n in r <==> n in names && Accepted(n)
    ensures forall i :: 0 <= i < |r| ==> Accepted(r[i])
  {
    Filter(names, Accepted)
  }

  /** A material record from the admin list. */
  datatype Material = Material(material: string, thickness: string, grade: Option<string>, status: string)

  /** Only the materials marked Active are kept. */
  function ActiveMaterials(ms: seq<Material>): (r: seq<Material>)
    ensures forall m :: m in r <==> m in ms && m.status == "Active"
  {
    Filter(ms, (m: Material) => m.status == "Active")
  }

  /** `grade || ''` */
  function GradeOf(m: Material): string {
    if m.grade.Some? then m.grade.value else ""
  }

  /** A row id `file_<time>_<position>`: the upload time and the file's
      position among the accepted files of that upload. */
  datatype RowId = RowId(stamp: int, index: nat)

  /** A row of the file table. `quantity` is None when the quantity input
      is empty; `updatedAt` is the time of the last edit. */
  datatype Row = Row(id: RowId, name: string, partRef: string, material: string, thickness: string,
                     grade: string, remarks: string, quantity: Option<int>, fileType: string,
                     updatedAt: Option<int>)

  /** The rows one upload adds: one per accepted file, in order, each
      named after its file and carrying the default material. */
  function NewRows(valid: seq<string>, stamp: int, m: Material): (r: seq<Row>)
    ensures |r| == |valid|
    ensures forall i :: 0 <= i < |r| ==>
      r[i].id == RowId(stamp, i) && r[i].name == valid[i] && r[i].partRef == valid[i]
      && r[i].material == m.material && r[i].thickness == m.thickness && r[i].grade == GradeOf(m)
      && r[i].remarks == "" && r[i].quantity == Some(1) && r[i].fileType == Extension(valid[i])
      && r[i].updatedAt == None
  {
    seq(|valid|, i requires 0 <= i < |valid| =>
      Row(RowId(stamp, i), valid[i], valid[i], m.material, m.thickness, GradeOf(m), "", Some(1),
          Extension(valid[i]), None))
  }

  /** The fields an edit from the table may set. */
  datatype RowUpdate = RowUpdate(partRef: Option<string>, material: Option<string>, thickness: Option<string>,
                                 grade: Option<string>, remarks: Option<string>, quantity: Option<Option<int>>)

  function Pick<T>(old_: T, given: Option<T>): T {
    if given.Some? then given.value else old_
  }

  /** `{ ...file, ...updatedData, updatedAt }` */
  function Merged(row: Row, u: RowUpdate, now: int): (r: Row)
    ensures r.id == row.id && r.name == row.name && r.fileType == row.fileType
    ensures r.updatedAt == Some(now)
    ensures r.partRef == if u.partRef.Some? then u.partRef.value else row.partRef
    ensures r.material == if u.material.Some? then u.material.value else row.material
    ensures r.thickness == if u.thickness.Some? then u.thickness.value else row.thickness
    ensures r.grade == if u.grade.Some? then u.grade.value else row.grade
    ensures u.remarks.Some? ==> r.remarks == u.remarks.value
    ensures u.remarks.None? ==> r.remarks == row.remarks
    ensures u.quantity.Some? ==> r.quantity == u.quantity.value
    ensures u.quantity.None? ==> r.quantity == row.quantity
  {
    row.(partRef := Pick(row.partRef, u.partRef), material := Pick(row.material, u.material),
         thickness := Pick(row.thickness, u.thickness), grade := Pick(row.grade, u.grade),
         remarks := Pick(row.remarks, u.remarks), quantity := Pick(row.quantity, u.quantity),
         updatedAt := Some(now))
  }

  /** `handleUpdatePdfFile`'s map: rows with the id are merged, the others
      kept as they are. */
  function UpdatedRows(rows: seq<Row>, id: RowId, u: RowUpdate, now: int): (r: seq<Row>)
    ensures |r| == |rows|
    ensures forall i :: 0 <= i < |rows| ==> r[i].id == rows[i].id
    ensures forall i :: 0 <= i < |rows| && rows[i].id != id ==> r[i] == rows[i]
    ensures forall i :: 0 <= i < |rows| && rows[i].id == id ==> r[i] == Merged(rows[i], u, now)
  {
    seq(|rows|, i requires 0 <= i < |rows| => if rows[i].id == id then Merged(rows[i], u, now) else rows[i])
  }

  /** `handleDeletePdfFile`'s filter. */
  function WithoutId(rows: seq<Row>, id: RowId): (r: seq<Row>)
    ensures forall x :: x in r <==> x in rows && x.id != id
  {
    Filter(rows, (x: Row) => x.id != id)
  }

  /** Deleting an id removes exactly as many rows as carry it. */
  lemma {:induction false} WithoutIdCount(rows: seq<Row>, id: RowId)
    ensures |WithoutId(rows, id)| == |rows| - |Filter(rows, (x: Row) => x.id == id)|
  {
    if |rows| > 0 {
      WithoutIdCount(rows[1..], id);
    }
  }

  /** An edit does not touch the rows of other ids, so deleting an id after
      editing it is the same as deleting it straight away. */
  lemma {:induction false} DeleteAfterUpdate(rows: seq<Row>, id: RowId, u: RowUpdate, now: int)
    ensures WithoutId(UpdatedRows(rows, id, u, now), id) == WithoutId(rows, id)
  {
    if |rows| > 0 {
      var up := UpdatedRows(rows, id, u, now);
      assert up[1..] == UpdatedRows(rows[1..], id, u, now);
      DeleteAfterUpdate(rows[1..], id, u, now);
    }
  }

  /** A row the submit check accepts: remarks that are not blank and a
      quantity of at least 1. */
  predicate HasRemarks(x: Row) {
    !IsBlank(x.remarks)
  }

  predicate HasQuantity(x: Row) {
    x.quantity.Some? && x.quantity.value >= 1
  }

  /** Why a submission is refused before any request is made; the counts
      are the rows at fault. */
  datatype SubmitError = NoFiles | MissingRemarks(count: nat) | InvalidQuantity(count: nat)

  /** The rows whose remarks are blank, in table order. */
  function RowsWithoutRemarks(rows: seq<Row>): (r: seq<Row>)
    ensures |r| <= |rows|
    ensures forall x :: x in r <==> x in rows && !HasRemarks(x)
  {
    Filter(rows, (x: Row) => !HasRemarks(x))
  }

  /** The rows without a quantity of at least 1, in table order. */
  function RowsWithoutQuantity(rows: seq<Row>): (r: seq<Row>)
    ensures |r| <= |rows|
    ensures forall x :: x in r <==> x in rows && !HasQuantity(x)
  {
    Filter(rows, (x: Row) => !HasQuantity(x))
  }

  /** `handleSubmit`'s checks, in order: an empty table, then rows without
      remarks, then rows without a valid quantity. A complaint counts the
      rows it is about. */
  function SubmitCheck(rows: seq<Row>): (r: Option<SubmitError>)
    ensures r == Some(NoFiles) <==> |rows| == 0
    ensures r.Some? && r.value.MissingRemarks? ==> r.value.count == |RowsWithoutRemarks(rows)| > 0
    ensures r.Some? && r.value.InvalidQuantity? ==>
      r.value.count == |RowsWithoutQuantity(rows)| > 0 && RowsWithoutRemarks(rows) == []
    ensures r.Some? && !r.value.NoFiles? ==> 0 < r.value.count <= |rows|
  {
    var noRemarks := RowsWithoutRemarks(rows);
    var noQuantity := RowsWithoutQuantity(rows);
    if |rows| == 0 then Some(NoFiles)
    else if |noRemarks| > 0 then Some(MissingRemarks(|noRemarks|))
    else if |noQuantity| > 0 then Some(InvalidQuantity(|noQuantity|))
    else None
  }

  /** A submission goes through exactly when there is a row and every row
      has remarks and a valid quantity; a quantity complaint comes only once
      every row has remarks. */
  lemma SubmitCheckMeaning(rows: seq<Row>)
    ensures SubmitCheck(rows) == None <==>
      |rows| > 0 && forall i :: 0 <= i < |rows| ==> HasRemarks(rows[i]) && HasQuantity(rows[i])
    ensures (SubmitCheck(rows).Some? && SubmitCheck(rows).value.MissingRemarks?) <==>
      exists i :: 0 <= i < |rows| && !HasRemarks(rows[i])
    ensures SubmitCheck(rows).Some? && SubmitCheck(rows).value.InvalidQuantity? ==>
      (forall i :: 0 <= i < |rows| ==> HasRemarks(rows[i]))
      && exists i :: 0 <= i < |rows| && !HasQuantity(rows[i])
  {
    var noRemarks, noQuantity := RowsWithoutRemarks(rows), RowsWithoutQuantity(rows);
    if |noRemarks| > 0 {
      assert noRemarks[0] in rows;
    }
    if |noQuantity| > 0 {
      assert noQuantity[0] in rows;
    }
  }

  /** Freshly added rows have no remarks yet, so a table holding one cannot
      be submitted until its remarks are filled in. */
  lemma FreshRowBlocksSubmit(rows: seq<Row>, valid: seq<string>, stamp: int, m: Material, k: int)
    requires 0 <= k < |valid|
    ensures SubmitCheck(rows + NewRows(valid, stamp, m)).Some?
  {
    var all := rows + NewRows(valid, stamp, m);
    SubmitCheckMeaning(all);
    assert all[|rows| + k] == NewRows(valid, stamp, m)[k];
    assert !HasRemarks(all[|rows| + k]) by {
      assert Trim("") == "";
    }
  }

  /** How an upload ended. */
  datatype UploadResult = NoValidFiles | NoMaterials | Added(count: nat)

  /** Drag events over the drop zone. */
  datatype DragEvent = DragEnter | DragOver | DragLeave | OtherDrag

  /** The page's state. */
  class NewInquiryPage {
    var pdfFiles: seq<Row>
    var dragActive: bool
    var materialData: seq<Material>

    constructor ()
      ensures pdfFiles == [] && !dragActive && materialData == []
    {
      pdfFiles := [];
      dragActive := false;
      materialData := [];
    }

    /** `fetchMaterialData`: the active materials of a successful answer
        that carries a list; an empty list otherwise. */
    method ReceiveMaterials(success: bool, data: Option<seq<Material>>)
      modifies this`materialData
      ensures materialData == if success && data.Some? then ActiveMaterials(data.value) else []
    {
      if success && data.Some? {
        materialData := ActiveMaterials(data.value);
      } else {
        materialData := [];
      }
    }

    /** `handleDrag`: entering or moving over the zone highlights it,
        leaving it clears the highlight. */
    method Drag(e: DragEvent)
      modifies this`dragActive
      ensures e == DragEnter || e == DragOver ==> dragActive
      ensures e == DragLeave ==> !dragActive
      ensures e == OtherDrag ==> dragActive == old(dragActive)
    {
      if e == DragEnter || e == DragOver {
        dragActive := true;
      } else if e == DragLeave {
        dragActive := false;
      }
    }

    /** `handleFileUpload`, with the file names chosen and the upload time.
        `rejected` reports that some file was refused. Nothing is added when
        no file is accepted or no material is loaded; otherwise the new
        rows come after the existing ones. */
    method Upload(names: seq<string>, stamp: int) returns (rejected: bool, result: UploadResult)
      modifies this`pdfFiles
      ensures rejected <==> |ValidFiles(names)| != |names|
      ensures |ValidFiles(names)| == 0 ==> result == NoValidFiles
      ensures |ValidFiles(names)| > 0 && |materialData| == 0 ==> result == NoMaterials
      ensures !result.Added? ==> pdfFiles == old(pdfFiles)
      ensures result.Added? <==> |ValidFiles(names)| > 0 && |materialData| > 0
      ensures result.Added? ==> (result.count == |ValidFiles(names)|
        && pdfFiles == old(pdfFiles) + NewRows(ValidFiles(names), stamp, materialData[0]))
    {
      var valid := ValidFiles(names);
      rejected := |valid| != |names|;
      if |valid| == 0 {
        return rejected, NoValidFiles;
      }
      if |materialData| == 0 {
        return rejected, NoMaterials;
      }
      pdfFiles := pdfFiles + NewRows(valid, stamp, materialData[0]);
      result := Added(|valid|);
    }

    /** `handleDrop`: the highlight is cleared; a drop without files does
        nothing else, and one with files is handled as an upload: refused
        files are reported, and the accepted ones are added when materials
        are loaded. */
    method Drop(names: seq<string>, stamp: int) returns (rejected: bool, result: Option<UploadResult>)
      modifies this`pdfFiles, this`dragActive
      ensures !dragActive
      ensures |names| == 0 ==> !rejected && result == None && pdfFiles == old(pdfFiles)
      ensures |names| > 0 ==> result.Some?
      ensures rejected <==> |names| > 0 && |ValidFiles(names)| != |names|
      ensures |names| > 0 && |ValidFiles(names)| == 0 ==> result == Some(NoValidFiles)
      ensures |ValidFiles(names)| > 0 && |materialData| == 0 ==> result == Some(NoMaterials)
      ensures result.Some? && result.value.Added? <==> |ValidFiles(names)| > 0 && |materialData| > 0
      ensures result.Some? && !result.value.Added? ==> pdfFiles == old(pdfFiles)
      ensures result.Some? && result.value.Added? ==> (result.value.count == |ValidFiles(names)|
        && pdfFiles == old(pdfFiles) + NewRows(ValidFiles(names), stamp, materialData[0]))
    {
      dragActive := false;
      if |names| == 0 {
        assert ValidFiles(names) == [];
        return false, None;
      }
      var r;
      rejected, r := Upload(names, stamp);
      result := Some(r);
    }

    /** `handleUpdatePdfFile` at time `now`. */
    method UpdateRow(id: RowId, u: RowUpdate, now: int)
      modifies this`pdfFiles
      ensures pdfFiles == UpdatedRows(old(pdfFiles), id, u, now)
    {
      pdfFiles := UpdatedRows(pdfFiles, id, u, now);
    }

    /** `handleDeletePdfFile` */
    method DeleteRow(id: RowId)
      modifies this`pdfFiles
      ensures pdfFiles == WithoutId(old(pdfFiles), id)
    {
      pdfFiles := WithoutId(pdfFiles, id);
    }
  }
}
