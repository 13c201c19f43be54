/** The quotation form: the editable table of priced parts, the price-list
    reader and the two bulk-repricing passes, the material list, the total
    and the checks made before a quotation is submitted. Amounts are whole
    cents. */
module QuotationForm {
  import opened Strings

  /** One row of the pricing table. `quantity` and `unitPrice` hold what
      was typed into their number inputs (None for an empty input);
      `totalPrice` is the stored line total. */
  datatype Part = Part(partRef: string, material: string, thickness: string, grade: string,
                       quantity: Option<int>, unitPrice: Option<int>, totalPrice: int,
                       remarks: string)

  /** The text columns of a row. */
  datatype TextField = PartRefField | MaterialField | ThicknessField | GradeField | RemarksField

  function TextOf(p: Part, f: TextField): string {
    match f
    case PartRefField => p.partRef
    case MaterialField => p.material
    case ThicknessField => p.thickness
    case GradeField => p.grade
    case RemarksField => p.remarks
  }

  function WithText(p: Part, f: TextField, v: string): Part {
    match f
    case PartRefField => p.(partRef := v)
    case MaterialField => p.(material := v)
    case ThicknessField => p.(thickness := v)
    case GradeField => p.(grade := v)
    case RemarksField => p.(remarks := v)
  }

  /** One `handlePartChange(index, field, value)` call, by field. */
  datatype PartEdit = EditText(field: TextField, text: string)
                    | EditQuantity(quantity: Option<int>)
                    | EditUnitPrice(unitPrice: Option<int>)

  /** The line total the table should show: price times quantity, a
      missing value counting as 0. */
  predicate Consistent(p: Part) {
    p.totalPrice == OrZero(p.unitPrice) * OrZero(p.quantity)
  }

  predicate AllConsistent(parts: seq<Part>) {
    forall i :: 0 <= i < |parts| ==> Consistent(parts[i])
  }

  /** The row after one edit. A text edit changes that column only; a
      price or quantity edit stores the new value and recomputes the line
      total from the row's other value. */
  function Edited(p: Part, e: PartEdit): (r: Part)
    ensures e.EditText? ==> (TextOf(r, e.field) == e.text
      && (forall f :: f != e.field ==> TextOf(r, f) == TextOf(p, f))
      && r.quantity == p.quantity && r.unitPrice == p.unitPrice && r.totalPrice == p.totalPrice)
    ensures !e.EditText? ==> forall f :: TextOf(r, f) == TextOf(p, f)
    ensures e.EditQuantity? ==> r.quantity == e.quantity && r.unitPrice == p.unitPrice
    ensures e.EditUnitPrice? ==> r.unitPrice == e.unitPrice && r.quantity == p.quantity
    ensures !e.EditText? ==> Consistent(r)
  {
    match e
    case EditText(f, v) => WithText(p, f, v)
    case EditQuantity(q) => p.(quantity := q, totalPrice := OrZero(p.unitPrice) * OrZero(q))
    case EditUnitPrice(u) => p.(unitPrice := u, totalPrice := OrZero(u) * OrZero(p.quantity))
  }

  /** No edit breaks a consistent line total. */
  lemma EditKeepsConsistent(p: Part, e: PartEdit)
    requires Consistent(p)
    ensures Consistent(Edited(p, e))
  {
  }

  /** The row `addPart` appends. */
  function BlankPart(): (p: Part)
    ensures Consistent(p) && p.quantity == Some(1) && p.unitPrice == Some(0) && p.totalPrice == 0
  {
    Part("", "Zintec", "1.5", "", Some(1), Some(0), 0, "")
  }

  /** The row shown when the inquiry has no parts. */
  function SamplePart(): (p: Part)
    ensures Consistent(p) && p.partRef == "Sample Part"
  {
    Part("Sample Part", "Zintec", "1.5", "", Some(1), Some(0), 0, "")
  }

  /** An inquiry part entering the table: unpriced. */
  function Unpriced(p: Part): (r: Part)
    ensures Consistent(r) && r.unitPrice == Some(0) && r.totalPrice == 0
    ensures forall f :: TextOf(r, f) == TextOf(p, f)
    ensures r.quantity == p.quantity
  {
    p.(unitPrice := Some(0), totalPrice := 0)
  }

  /** The table the form opens with, from the inquiry's parts. */
  function InitialParts(inquiryParts: seq<Part>): (r: seq<Part>)
    ensures |inquiryParts| == 0 ==> r == [SamplePart()]
    ensures |inquiryParts| > 0 ==> (|r| == |inquiryParts|
      && forall i :: 0 <= i < |r| ==> r[i] == Unpriced(inquiryParts[i]))
    ensures |r| >= 1 && AllConsistent(r)
  {
    if |inquiryParts| == 0 then [SamplePart()]
    else seq(|inquiryParts|, i requires 0 <= i < |inquiryParts| => Unpriced(inquiryParts[i]))
  }

  /** `calculateTotal` in manual mode: the sum of the line totals. */
  function Sum(parts: seq<Part>): int {
    if |parts| == 0 then 0 else parts[0].totalPrice + Sum(parts[1..])
  }

  lemma {:induction false} SumAppend(a: seq<Part>, b: seq<Part>)
    ensures Sum(a + b) == Sum(a) + Sum(b)
  {
    if |a| == 0 {
      assert a + b == b;
    } else {
      assert (a + b)[1..] == a[1..] + b;
      SumAppend(a[1..], b);
    }
  }

  /** Changing one row changes the total by exactly that row's change. */
  lemma SumUpdate(parts: seq<Part>, i: int, p: Part)
    requires 0 <= i < |parts|
    ensures Sum(parts[i := p]) == Sum(parts) - parts[i].totalPrice + p.totalPrice
  {
    assert parts == parts[..i] + [parts[i]] + parts[i + 1..];
    assert parts[i := p] == parts[..i] + [p] + parts[i + 1..];
    SumAppend(parts[..i] + [parts[i]], parts[i + 1..]);
    SumAppend(parts[..i], [parts[i]]);
    SumAppend(parts[..i] + [p], parts[i + 1..]);
    SumAppend(parts[..i], [p]);
  }

  /** Adding a blank row leaves the total unchanged; removing a row takes
      off exactly its line total. */
  lemma SumAdd(parts: seq<Part>)
    ensures Sum(parts + [BlankPart()]) == Sum(parts)
  {
    var b := BlankPart();
    SumAppend(parts, [b]);
    assert [b][1..] == [];
  }

  lemma SumRemove(parts: seq<Part>, i: int)
    requires 0 <= i < |parts|
    ensures Sum(WithoutIndex(parts, i)) == Sum(parts) - parts[i].totalPrice
  {
    var front, back := parts[..i], parts[i + 1..];
    var rest := [parts[i]] + back;
    SplitAround(parts, i);
    SumAppend(front, back);
    SumAppend(front, rest);
    assert Sum(rest) == parts[i].totalPrice + Sum(back) by {
      assert rest[1..] == back;
    }
  }

  /** The sum of price times quantity, computed from the rows' inputs. */
  function Amount(parts: seq<Part>): int {
    if |parts| == 0 then 0 else OrZero(parts[0].unitPrice) * OrZero(parts[0].quantity) + Amount(parts[1..])
  }

  /** While every line total is consistent, the total is the sum of price
      times quantity. */
  lemma {:induction false} SumIsAmount(parts: seq<Part>)
    requires AllConsistent(parts)
    ensures Sum(parts) == Amount(parts)
  {
    if |parts| > 0 {
      assert Consistent(parts[0]);
      SumIsAmount(parts[1..]);
    }
  }

  /** `calculateTotal`: in upload mode the typed amount once it has been
      accepted, else 0; in manual mode the sum of the line totals. */
  function CalculateTotal(uploadMode: bool, pdfProcessed: bool, totalAmount: int, parts: seq<Part>): (r: int)
    ensures uploadMode && !pdfProcessed ==> r == 0
    ensures uploadMode && pdfProcessed ==> r == totalAmount
    ensures !uploadMode ==> r == Sum(parts)
  {
    if uploadMode then (if pdfProcessed then totalAmount else 0) else Sum(parts)
  }

  /** One entry of a loaded price list. */
  datatype PriceEntry = PriceEntry(partRef: string, material: string, unitPrice: int)

  /** The entry a price-list line yields: none unless it has at least three
      comma-separated fields; the first two trimmed, the third read as a
      price with anything unreadable as 0. */
  function EntryOf(line: string): (r: seq<PriceEntry>)
    ensures |r| <= 1
    ensures |r| == 1 <==> |Split(line, ',')| >= 3
  {
    var row := Split(line, ',');
    if |row| >= 3 then [PriceEntry(Trim(row[0]), Trim(row[1]), OrZero(ParseCents(row[2])))] else []
  }

  /** The entries of a sequence of data lines, in line order. */
  function PriceEntries(lines: seq<string>): (r: seq<PriceEntry>)
    ensures |r| <= |lines|
  {
    if |lines| == 0 then []
    else PriceEntries(lines[..|lines| - 1]) + EntryOf(lines[|lines| - 1])
  }

  /** Every entry comes from some data line, with its reference and
      material trimmed. */
  lemma {:induction false} PriceEntriesFromLines(lines: seq<string>, e: PriceEntry)
    requires e in PriceEntries(lines)
    ensures exists k :: 0 <= k < |lines| && EntryOf(lines[k]) == [e]
  {
    var n := |lines|;
    var front := PriceEntries(lines[..n - 1]);
    var last := EntryOf(lines[n - 1]);
    assert PriceEntries(lines) == front + last;
    if e in front {
      PriceEntriesFromLines(lines[..n - 1], e);
      var k :| 0 <= k < n - 1 && EntryOf(lines[..n - 1][k]) == [e];
      assert lines[..n - 1][k] == lines[k];
    } else {
      OnlyElement(e, last);
    }
  }

  lemma OnlyElement(e: PriceEntry, xs: seq<PriceEntry>)
    requires e in xs && |xs| <= 1
    ensures xs == [e]
  {
  }

  /** A line's entry has its reference and material already trimmed. */
  lemma EntryTrimmed(line: string)
    ensures forall e :: e in EntryOf(line) ==> Trim(e.partRef) == e.partRef && Trim(e.material) == e.material
  {
    var row := Split(line, ',');
    if |row| >= 3 {
      var e := PriceEntry(Trim(row[0]), Trim(row[1]), OrZero(ParseCents(row[2])));
      assert EntryOf(line) == [e];
      TrimIdempotent(row[0]);
      TrimIdempotent(row[1]);
    }
  }

  /** The price-list reader: split into lines, skip the header line, keep
      one entry per line with at least three fields. */
  method ParsePriceList(text: string) returns (data: seq<PriceEntry>)
    ensures data == PriceEntries(Split(text, '\n')[1..])
    ensures |data| < |Split(text, '\n')|
  {
    var lines := Split(text, '\n');
    data := [];
    var i := 1;
    while i < |lines|
      invariant 1 <= i <= |lines|
      invariant data == PriceEntries(lines[1..i])
    {
      var row := Split(lines[i], ',');
      PriceEntriesSnoc(lines, i);
      if |row| >= 3 {
        var e := PriceEntry(Trim(row[0]), Trim(row[1]), OrZero(ParseCents(row[2])));
        assert EntryOf(lines[i]) == [e];
        data := data + [e];
      } else {
        assert EntryOf(lines[i]) == [];
      }
      i := i + 1;
    }
    assert lines[1..i] == lines[1..];
  }

  lemma PriceEntriesSnoc(lines: seq<string>, i: int)
    requires 1 <= i < |lines|
    ensures PriceEntries(lines[1..i + 1]) == PriceEntries(lines[1..i]) + EntryOf(lines[i])
  {
    var seen := lines[1..i + 1];
    assert seen[..|seen| - 1] == lines[1..i] && seen[|seen| - 1] == lines[i];
  }

  /** A text with no line break is only a header: no entries. */
  lemma HeaderOnly(text: string)
    requires '\n' !in text
    ensures PriceEntries(Split(text, '\n')[1..]) == []
  {
    SplitWithoutSeparator(text, '\n');
  }

  /** A price-list entry is for a row when both reference and material
      match exactly. */
  predicate Matches(e: PriceEntry, p: Part) {
    e.partRef == p.partRef && e.material == p.material
  }

  /** The position of the first entry for `p`, or `|data|` when there is
      none. */
  function MatchIndex(data: seq<PriceEntry>, p: Part): (k: nat)
    ensures k <= |data|
    ensures k < |data| ==> Matches(data[k], p)
    ensures forall j :: 0 <= j < k ==> !Matches(data[j], p)
  {
    if |data| == 0 then 0
    else if Matches(data[0], p) then 0
    else 1 + MatchIndex(data[1..], p)
  }

  /** A row given a unit price, its line total recomputed. */
  function Repriced(p: Part, price: int): (r: Part)
    ensures Consistent(r) && r.unitPrice == Some(price)
    ensures forall f :: TextOf(r, f) == TextOf(p, f)
    ensures r.quantity == p.quantity
  {
    p.(unitPrice := Some(price), totalPrice := price * OrZero(p.quantity))
  }

  /** `applyBulkPricing`'s map: each row takes the price of the first entry
      for it; rows without an entry are unchanged. */
  function BulkPriced(parts: seq<Part>, data: seq<PriceEntry>): (r: seq<Part>)
    ensures |r| == |parts|
    ensures forall i :: 0 <= i < |parts| && MatchIndex(data, parts[i]) == |data| ==> r[i] == parts[i]
    ensures forall i :: 0 <= i < |parts| && MatchIndex(data, parts[i]) < |data| ==>
      r[i] == Repriced(parts[i], data[MatchIndex(data, parts[i])].unitPrice)
  {
    seq(|parts|, i requires 0 <= i < |parts| =>
      var k := MatchIndex(data, parts[i]);
      if k < |data| then Repriced(parts[i], data[k].unitPrice) else parts[i])
  }

  /** Repricing keeps line totals consistent, and applying the same price
      list twice gives what applying it once gives. */
  lemma BulkPricedProperties(parts: seq<Part>, data: seq<PriceEntry>)
    ensures AllConsistent(parts) ==> AllConsistent(BulkPriced(parts, data))
    ensures BulkPriced(BulkPriced(parts, data), data) == BulkPriced(parts, data)
  {
    var once := BulkPriced(parts, data);
    forall i | 0 <= i < |parts|
      ensures BulkPriced(once, data)[i] == once[i]
    {
      assert TextOf(once[i], PartRefField) == parts[i].partRef;
      assert TextOf(once[i], MaterialField) == parts[i].material;
      MatchIndexSameKey(data, parts[i], once[i]);
    }
  }

  /** The first entry for a row depends only on its reference and material. */
  lemma {:induction false} MatchIndexSameKey(data: seq<PriceEntry>, p: Part, q: Part)
    requires p.partRef == q.partRef && p.material == q.material
    ensures MatchIndex(data, p) == MatchIndex(data, q)
  {
    if |data| > 0 && !Matches(data[0], p) {
      MatchIndexSameKey(data[1..], p, q);
    }
  }

  /** A material needs a price when it has none or a price that is not
      positive. */
  predicate Lacking(pricing: map<string, int>, m: string) {
    m !in pricing || pricing[m] <= 0
  }

  /** Some material has a positive price. */
  predicate HasAnyPrice(pricing: map<string, int>) {
    exists m :: m in pricing && pricing[m] > 0
  }

  /** The materials of the rows whose material needs a price, in row order
      with repeats. */
  function LackingMaterials(parts: seq<Part>, pricing: map<string, int>): (r: seq<string>)
    ensures forall m :: m in r <==> exists i :: 0 <= i < |parts| && parts[i].material == m && Lacking(pricing, m)
  {
    if |parts| == 0 then []
    else
      var front := LackingMaterials(parts[..|parts| - 1], pricing);
      var m := parts[|parts| - 1].material;
      assert forall i :: 0 <= i < |parts| - 1 ==> parts[..|parts| - 1][i] == parts[i];
      if Lacking(pricing, m) then front + [m] else front
  }

  /** The first occurrence of each value, in order: `[...new Set(xs)]`. */
  function Distinct(xs: seq<string>): (r: seq<string>)
    ensures forall x :: x in r <==> x in xs
    ensures NoDuplicates(r)
  {
    if |xs| == 0 then []
    else
      var front := Distinct(xs[..|xs| - 1]);
      var x := xs[|xs| - 1];
      assert xs == xs[..|xs| - 1] + [x];
      if x in front then front else front + [x]
  }

  /** The materials still needing a price, each once, in the order they
      first appear in the table. */
  function MissingMaterials(parts: seq<Part>, pricing: map<string, int>): (r: seq<string>)
    ensures NoDuplicates(r)
    ensures forall m :: m in r <==> exists i :: 0 <= i < |parts| && parts[i].material == m && Lacking(pricing, m)
  {
    Distinct(LackingMaterials(parts, pricing))
  }

  /** `applyMaterialPricing`'s check loop, collecting each unpriced
      material once. */
  method CollectMissing(parts: seq<Part>, pricing: map<string, int>) returns (missing: seq<string>)
    ensures missing == MissingMaterials(parts, pricing)
  {
    missing := [];
    var i := 0;
    while i < |parts|
      invariant 0 <= i <= |parts|
      invariant missing == Distinct(LackingMaterials(parts[..i], pricing))
    {
      var m := parts[i].material;
      assert parts[..i + 1][..i] == parts[..i];
      assert parts[..i + 1][i].material == m;
      if Lacking(pricing, m) {
        assert LackingMaterials(parts[..i + 1], pricing) == LackingMaterials(parts[..i], pricing) + [m];
        if m !in missing {
          missing := missing + [m];
        }
      }
      i := i + 1;
    }
    assert parts[..i] == parts;
  }

  /** `applyMaterialPricing`'s map: rows whose material has a positive
      price take it; the others are unchanged. */
  function MaterialPriced(parts: seq<Part>, pricing: map<string, int>): (r: seq<Part>)
    ensures |r| == |parts|
    ensures forall i :: 0 <= i < |parts| && Lacking(pricing, parts[i].material) ==> r[i] == parts[i]
    ensures forall i :: 0 <= i < |parts| && !Lacking(pricing, parts[i].material) ==>
      r[i] == Repriced(parts[i], pricing[parts[i].material])
  {
    seq(|parts|, i requires 0 <= i < |parts| =>
      var m := parts[i].material;
      if m in pricing && pricing[m] > 0 then Repriced(parts[i], pricing[m]) else parts[i])
  }

  /** Once no material is missing a price, every row is priced at its
      material's price, and the line totals are consistent. */
  lemma MaterialPricingComplete(parts: seq<Part>, pricing: map<string, int>)
    requires MissingMaterials(parts, pricing) == []
    ensures forall i :: 0 <= i < |parts| ==>
      parts[i].material in pricing && pricing[parts[i].material] > 0
      && MaterialPriced(parts, pricing)[i].unitPrice == Some(pricing[parts[i].material])
    ensures AllConsistent(MaterialPriced(parts, pricing))
  {
    forall i | 0 <= i < |parts|
      ensures !Lacking(pricing, parts[i].material)
    {
    }
  }

  /** `getUniqueMaterials`: each non-blank material of the table once. */
  function UniqueMaterials(parts: seq<Part>): (r: seq<string>)
    ensures NoDuplicates(r)
    ensures forall m :: m in r <==> !IsBlank(m) && exists i :: 0 <= i < |parts| && parts[i].material == m
  {
    var materials := seq(|parts|, i requires 0 <= i < |parts| => parts[i].material);
    assert forall m :: m in materials <==> exists i :: 0 <= i < |parts| && parts[i].material == m by {
      forall m | m in materials ensures exists i :: 0 <= i < |parts| && parts[i].material == m {
        var i :| 0 <= i < |materials| && materials[i] == m;
      }
      forall i | 0 <= i < |parts| ensures parts[i].material in materials {
        assert materials[i] == parts[i].material;
      }
    }
    NonBlank(Distinct(materials))
  }

  /** Why a submission is refused before any request is made. */
  datatype SubmitError = NoParts | InvalidUnitPrice | NoQuotationFile | InvalidTotalAmount

  /** A unit price that passes the submit check. */
  predicate HasPrice(p: Part) {
    p.unitPrice.Some? && p.unitPrice.value > 0
  }

  /** `handleSubmit`'s checks, in order. In manual mode a submission needs
      at least one row and a positive price on every row; in upload mode a
      quotation file and a positive total. */
  function SubmitCheck(uploadMode: bool, parts: seq<Part>, hasFile: bool, totalAmount: int): (r: Option<SubmitError>)
    ensures r == None <==>
      if uploadMode then hasFile && totalAmount > 0
      else |parts| > 0 && forall i :: 0 <= i < |parts| ==> HasPrice(parts[i])
    ensures r == Some(NoParts) <==> !uploadMode && |parts| == 0
    ensures r == Some(NoQuotationFile) <==> uploadMode && !hasFile
    ensures r == Some(InvalidUnitPrice) <==>
      !uploadMode && |parts| > 0 && exists i :: 0 <= i < |parts| && !HasPrice(parts[i])
    ensures r == Some(InvalidTotalAmount) <==> uploadMode && hasFile && totalAmount <= 0
  {
    if !uploadMode then
      if |parts| == 0 then Some(NoParts)
      else if exists i :: 0 <= i < |parts| && !HasPrice(parts[i]) then Some(InvalidUnitPrice)
      else None
    else
      if !hasFile then Some(NoQuotationFile)
      else if totalAmount <= 0 then Some(InvalidTotalAmount)
      else None
  }

  /** The message shown when creating the quotation fails. */
  datatype FailureNotice = AlreadyExistsNotice | ServerNotice(message: string) | GenericNotice

  /** A 400 answer whose message mentions an existing quotation gets the
      dedicated notice; another non-empty 400 message is shown as is; every
      other failure gets the generic notice. */
  function FailureNoticeOf(status: Option<int>, message: Option<string>): (r: FailureNotice)
    ensures r == AlreadyExistsNotice <==>
      status == Some(400) && message.Some? && Contains(message.value, "already exists")
    ensures r.ServerNotice? <==>
      status == Some(400) && message.Some? && message.value != "" && !Contains(message.value, "already exists")
    ensures r.ServerNotice? ==> r.message == message.value
  {
    if status == Some(400) && message.Some? then
      if Contains(message.value, "already exists") then AlreadyExistsNotice
      else if message.value != "" then ServerNotice(message.value)
      else GenericNotice
    else GenericNotice
  }

  /** How applying material prices ended. */
  datatype MaterialOutcome = NoPrices | MissingPrices(materials: seq<string>) | Applied

  /** The form's state. */
  class QuotationFormState {
    var parts: seq<Part>
    var uploadMode: bool
    var hasQuotationFile: bool
    var totalAmount: int
    var pdfProcessed: bool
    var bulkPricingData: Option<seq<PriceEntry>>
    var materialPricing: map<string, int>
    var showBulkPricingModal: bool

    /** Every line total agrees with its row's price and quantity. */
    predicate Valid()
      reads this
    {
      AllConsistent(parts)
    }

    constructor ()
      ensures Valid() && parts == [] && !uploadMode && !hasQuotationFile
      ensures totalAmount == 0 && !pdfProcessed && bulkPricingData == None
      ensures materialPricing == map[] && !showBulkPricingModal
    {
      parts := [];
      uploadMode := false;
      hasQuotationFile := false;
      totalAmount := 0;
      pdfProcessed := false;
      bulkPricingData := None;
      materialPricing := map[];
      showBulkPricingModal := false;
    }

    /** The form opening for an inquiry (None when there is none): back to
        manual mode with no total, and, for an inquiry, its parts unpriced
        or the sample row. */
    method Open(inquiryParts: Option<seq<Part>>)
      requires Valid()
      modifies this`parts, this`uploadMode, this`pdfProcessed, this`totalAmount
      ensures Valid() && !uploadMode && !pdfProcessed && totalAmount == 0
      ensures parts == if inquiryParts.Some? then InitialParts(inquiryParts.value) else old(parts)
    {
      uploadMode := false;
      pdfProcessed := false;
      totalAmount := 0;
      if inquiryParts.Some? {
        parts := InitialParts(inquiryParts.value);
      }
    }

    /** `handlePartChange`: only row `index` changes, and the total moves
        by exactly that row's change. */
    method ChangePart(index: int, e: PartEdit)
      requires Valid() && 0 <= index < |parts|
      modifies this`parts
      ensures Valid()
      ensures parts == old(parts)[index := Edited(old(parts)[index], e)]
      ensures Sum(parts) == Sum(old(parts)) - old(parts)[index].totalPrice + parts[index].totalPrice
    {
      EditKeepsConsistent(parts[index], e);
      SumUpdate(parts, index, Edited(parts[index], e));
      parts := parts[index := Edited(parts[index], e)];
    }

    /** `addPart`: one blank row at the end; the total is unchanged. */
    method AddPart()
      requires Valid()
      modifies this`parts
      ensures Valid() && parts == old(parts) + [BlankPart()]
      ensures Sum(parts) == Sum(old(parts))
    {
      SumAdd(parts);
      parts := parts + [BlankPart()];
    }

    /** `removePart`: removes row `index` only while more than one row is
        left, so the table never empties. */
    method RemovePart(index: int)
      requires Valid()
      modifies this`parts
      ensures Valid()
      ensures parts == if |old(parts)| > 1 then WithoutIndex(old(parts), index) else old(parts)
      ensures |old(parts)| >= 1 ==> |parts| >= 1
    {
      if |parts| > 1 {
        parts := WithoutIndex(parts, index);
      }
    }

    /** A price-list file read as text. */
    method LoadPriceList(text: string)
      modifies this`bulkPricingData
      ensures bulkPricingData == Some(PriceEntries(Split(text, '\n')[1..]))
    {
      var data := ParsePriceList(text);
      bulkPricingData := Some(data);
    }

    /** `applyBulkPricing`: refused when no price list or an empty one is
        loaded; otherwise every row takes its first matching price. */
    method ApplyBulkPricing() returns (applied: bool)
      requires Valid()
      modifies this`parts
      ensures Valid()
      ensures applied <==> bulkPricingData.Some? && |bulkPricingData.value| > 0
      ensures parts == if applied then BulkPriced(old(parts), bulkPricingData.value) else old(parts)
    {
      if bulkPricingData == None || |bulkPricingData.value| == 0 {
        return false;
      }
      BulkPricedProperties(parts, bulkPricingData.value);
      parts := BulkPriced(parts, bulkPricingData.value);
      applied := true;
    }

    /** A price typed for a material: anything unreadable counts as 0. */
    method SetMaterialPrice(material: string, typed: Option<int>)
      modifies this`materialPricing
      ensures materialPricing == old(materialPricing)[material := OrZero(typed)]
    {
      materialPricing := materialPricing[material := OrZero(typed)];
    }

    /** `applyMaterialPricing`: refused when no material has a positive
        price, or, naming them, when some row's material has none; otherwise
        every row is priced by material and the pricing dialog closes. */
    method ApplyMaterialPricing() returns (out: MaterialOutcome)
      requires Valid()
      modifies this`parts, this`showBulkPricingModal
      ensures Valid()
      ensures !HasAnyPrice(materialPricing) ==> out == NoPrices
      ensures HasAnyPrice(materialPricing) && MissingMaterials(old(parts), materialPricing) != [] ==>
        out == MissingPrices(MissingMaterials(old(parts), materialPricing))
      ensures !out.Applied? ==> parts == old(parts) && showBulkPricingModal == old(showBulkPricingModal)
      ensures out.Applied? <==> HasAnyPrice(materialPricing) && MissingMaterials(old(parts), materialPricing) == []
      ensures out.Applied? ==> parts == MaterialPriced(old(parts), materialPricing) && !showBulkPricingModal
    {
      var any := exists m :: m in materialPricing && materialPricing[m] > 0;
      if !any {
        return NoPrices;
      }
      var missing := CollectMissing(parts, materialPricing);
      if |missing| > 0 {
        return MissingPrices(missing);
      }
      MaterialPricingComplete(parts, materialPricing);
      parts := MaterialPriced(parts, materialPricing);
      showBulkPricingModal := false;
      out := Applied;
    }

    /** Switching to upload mode clears the typed total. */
    method SwitchToUpload()
      modifies this`uploadMode, this`totalAmount
      ensures uploadMode && totalAmount == 0
    {
      totalAmount := 0;
      uploadMode := true;
    }

    method SwitchToManual()
      modifies this`uploadMode
      ensures !uploadMode
    {
      uploadMode := false;
    }

    /** The total typed for an uploaded quotation; a positive amount marks
        it as accepted, and nothing clears that mark here. */
    method EnterTotalAmount(typed: Option<int>)
      modifies this`totalAmount, this`pdfProcessed
      ensures totalAmount == OrZero(typed)
      ensures pdfProcessed == (old(pdfProcessed) || OrZero(typed) > 0)
    {
      totalAmount := OrZero(typed);
      if totalAmount > 0 {
        pdfProcessed := true;
      }
    }

    /** The total the form shows and submits. */
    function Total(): int
      reads this
    {
      CalculateTotal(uploadMode, pdfProcessed, totalAmount, parts)
    }
  }
}
