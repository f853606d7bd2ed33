/**
 * The HTTP surface of the verification service (python_backend/main.py):
 * the content-type gate and exception flow of `/verify-certificate`, the JSON
 * form of its reply, and the `/health` and `/institutions` endpoints.
 */
module Endpoint {
  import opened Wrappers
  import opened Text
  import opened Scoring
  import opened Extraction
  import Types

  /** A FastAPI reply: a body, or an `HTTPException` with its status and detail. */
  datatype Response<T> = Ok(body: T) | HttpError(status: int, detail: string)

  /** `extract_text_with_ocr`: OCR of the uploaded bytes; it never raises (it falls back to fixed text). */
  type Ocr = seq<bv8> -> string

  /** The regular-expression extraction of every field except the institution. */
  type FieldReader = string -> CertificateData

  /**
   * `extract_certificate_data`: the fields the regular expressions find, with
   * the institution taken from the line scan over the lower-cased text.
   */
  function ExtractCertificateData(text: string, readFields: FieldReader): (d: CertificateData)
    ensures d.institution == InstitutionOf(Lines(text))
    ensures d.(institution := None) == readFields(text).(institution := None)
  {
    readFields(text).(institution := InstitutionOf(Lines(text)))
  }

  /** The form field the endpoint reads the upload from (`file: UploadFile`). */
  const FileParameter := "file"

  const UnsupportedType := "Only image files and PDFs are supported"
  const PdfNotImplemented := "PDF processing not implemented in this demo. Please upload an image."
  const FailurePrefix := "Verification failed: "

  predicate IsImage(contentType: string) {
    StartsWith(contentType, "image/")
  }

  predicate IsPdf(contentType: string) {
    contentType == "application/pdf"
  }

  /** The gate in front of the `try`: images and PDFs only. */
  predicate Accepted(contentType: string) {
    IsImage(contentType) || IsPdf(contentType)
  }

  /**
   * The detail of the 500 reply: the `except` block formats the caught
   * exception, and `str` of an `HTTPException` reads "<status>: <detail>".
   */
  function PdfFailureDetail(): (d: string)
    ensures StartsWith(d, FailurePrefix)
  {
    FailurePrefix + "400: " + PdfNotImplemented
  }

  /**
   * `verify_certificate`: unsupported types are refused with 400 before the
   * `try`; a PDF raises 400 inside it, which the `except` turns into 500;
   * an image is read, OCR'd, extracted and scored.
   */
  function VerifyCertificate(
    contentType: string, content: seq<bv8>, ocr: Ocr, readFields: FieldReader,
    db: Database, sim: Similarity, timestamp: string): (r: Response<VerificationResult>)
    ensures r == HttpError(400, UnsupportedType) <==> !Accepted(contentType)
    ensures r.HttpError? && r.status == 500 <==> IsPdf(contentType)
    ensures r.HttpError? && r.status == 500 ==> StartsWith(r.detail, FailurePrefix)
    ensures r.Ok? <==> IsImage(contentType)
    ensures r.Ok? ==> r.body == Verify(db, ExtractCertificateData(ocr(content), readFields), sim, timestamp)
  {
    if !Accepted(contentType) then HttpError(400, UnsupportedType)
    else if IsPdf(contentType) then
      assert contentType[0] == 'a';
      HttpError(500, PdfFailureDetail())
    else Ok(Verify(db, ExtractCertificateData(ocr(content), readFields), sim, timestamp))
  }

  // ---------------------------------------------------------------------
  // The JSON reply

  /** Each element rendered with `show`, in order. */
  function Render<T>(xs: seq<T>, show: T -> string): (r: seq<string>)
    ensures |r| == |xs|
    ensures forall i | 0 <= i < |xs| :: r[i] == show(xs[i])
    decreases |xs|
  {
    if xs == [] then [] else [show(xs[0])] + Render(xs[1..], show)
  }

  predicate NoDuplicates<T(==)>(xs: seq<T>) {
    forall i, j | 0 <= i < j < |xs| :: xs[i] != xs[j]
  }

  /** `order` lists the set `s`, each element once; `list(set(...))` gives some such order. */
  predicate IsListing(order: seq<Label>, s: set<Label>) {
    (forall l :: l in order <==> l in s) && NoDuplicates(order)
  }

  const AllLabels: seq<Label> :=
    [InstitutionLabel, NumberLabel, NameLabel, PartialNameLabel, RollLabel, CourseLabel, YearLabel, FormatLabel]

  /** The labels of `from` that belong to `s`, in the order of `from`. */
  function Select(from: seq<Label>, s: set<Label>): (r: seq<Label>)
    ensures forall l :: l in r <==> l in from && l in s
    ensures NoDuplicates(from) ==> NoDuplicates(r)
    decreases |from|
  {
    if from == [] then []
    else
      var rest := Select(from[1..], s);
      assert forall l :: l in rest ==> l in from[1..];
      if from[0] in s then [from[0]] + rest else rest
  }

  /** Where a label stands in `AllLabels`. */
  function LabelIndex(l: Label): (i: nat)
    ensures i < |AllLabels| && AllLabels[i] == l
  {
    match l
    case InstitutionLabel => 0
    case NumberLabel => 1
    case NameLabel => 2
    case PartialNameLabel => 3
    case RollLabel => 4
    case CourseLabel => 5
    case YearLabel => 6
    case FormatLabel => 7
  }

  lemma AllLabelsOnce()
    ensures NoDuplicates(AllLabels)
  {
    forall i, j | 0 <= i < j < |AllLabels| ensures AllLabels[i] != AllLabels[j] {
      assert LabelIndex(AllLabels[i]) == i;
    }
  }

  /** Every set of labels has a listing, so the reply can always be formed. */
  lemma ListingExists(s: set<Label>)
    ensures IsListing(Select(AllLabels, s), s)
  {
    AllLabelsOnce();
    forall l ensures l in AllLabels {
      var i := LabelIndex(l);
    }
  }

  /** The reply text tells the labels apart. */
  lemma LabelTextInjective(a: Label, b: Label)
    requires a.Text() == b.Text()
    ensures a == b
  {
    match a
    case InstitutionLabel => assert a.Text()[0] == 'I';
    case NumberLabel => assert a.Text()[0] == 'C' && |a.Text()| == 18;
    case NameLabel => assert a.Text()[0] == 'S' && |a.Text()| == 12;
    case PartialNameLabel => assert a.Text()[0] == 'S' && |a.Text()| == 22;
    case RollLabel => assert a.Text()[0] == 'R';
    case CourseLabel => assert a.Text()[0] == 'C' && |a.Text()| == 6;
    case YearLabel => assert a.Text()[0] == 'G';
    case FormatLabel => assert a.Text()[0] == 'C' && |a.Text()| == 18 && a.Text()[12] == 'F';
  }

  function FlagText(f: Flag): string { f.Text() }
  function LabelText(l: Label): string { l.Text() }
  function DiscrepancyText(d: Discrepancy): string { d.Text() }

  /**
   * The reply as `response_model` serialises it: every flag, label and
   * discrepancy as its text, `matched_fields` in the order `order` of the set.
   */
  function ToJson(r: VerificationResult, order: seq<Label>): (w: Types.PythonVerificationResult)
    requires IsListing(order, r.matchedFields)
    ensures w.isValid == r.isValid && w.confidence == r.confidence
    ensures w.institutionVerified == r.institutionVerified
    ensures w.extractedData == r.extractedData && w.timestamp == r.timestamp
    ensures |w.flags| == |r.flags| && forall i | 0 <= i < |r.flags| :: w.flags[i] == r.flags[i].Text()
    ensures |w.discrepancies| == |r.discrepancies|
      && forall i | 0 <= i < |r.discrepancies| :: w.discrepancies[i] == r.discrepancies[i].Text()
    ensures |w.matchedFields| == |order| && forall i | 0 <= i < |order| :: w.matchedFields[i] == order[i].Text()
  {
    Types.PythonVerificationResult(
      r.isValid,
      r.confidence,
      Render(r.flags, FlagText),
      Render(order, LabelText),
      Render(r.discrepancies, DiscrepancyText),
      r.institutionVerified,
      r.extractedData,
      r.timestamp)
  }

  /**
   * `matched_fields` in the reply names each matched field exactly once:
   * the texts are pairwise different and are exactly those of the set.
   */
  lemma MatchedFieldsOnce(r: VerificationResult, order: seq<Label>)
    requires IsListing(order, r.matchedFields)
    ensures var w := ToJson(r, order);
      && NoDuplicates(w.matchedFields)
      && (forall t :: t in w.matchedFields <==> exists l | l in r.matchedFields :: l.Text() == t)
  {
    var w := ToJson(r, order);
    forall i, j | 0 <= i < j < |w.matchedFields| ensures w.matchedFields[i] != w.matchedFields[j] {
      if w.matchedFields[i] == w.matchedFields[j] {
        LabelTextInjective(order[i], order[j]);
      }
    }
    forall t ensures t in w.matchedFields <==> exists l | l in r.matchedFields :: l.Text() == t {
      if t in w.matchedFields {
        var i :| 0 <= i < |w.matchedFields| && w.matchedFields[i] == t;
        assert order[i] in r.matchedFields;
      }
      if exists l | l in r.matchedFields :: l.Text() == t {
        var l :| l in r.matchedFields && l.Text() == t;
        var i :| 0 <= i < |order| && order[i] == l;
        assert w.matchedFields[i] == t;
      }
    }
  }

  // ---------------------------------------------------------------------
  // The other endpoints

  /** `/health`: a fixed reply; it never fails. */
  function Health(): (b: Types.HealthBody)
    ensures b.status == "healthy"
  {
    Types.HealthBody("healthy", "Certificate verification service is running")
  }

  /** `/institutions`: the keys of the institutions table, in table order. */
  function Institutions(db: Database): (b: Types.InstitutionsBody)
    ensures |b.institutions| == |db.institutions|
    ensures forall i | 0 <= i < |db.institutions| :: b.institutions[i] == db.institutions[i].name
  {
    Types.InstitutionsBody(Names(db.institutions))
  }

  function Names(table: seq<Institution>): (r: seq<string>)
    ensures |r| == |table| && forall i | 0 <= i < |table| :: r[i] == table[i].name
    decreases |table|
  {
    if table == [] then [] else [table[0].name] + Names(table[1..])
  }

  /** A name the institutions endpoint reports is verified as an institution of its own. */
  lemma ListedInstitutionsVerify(db: Database, i: nat)
    requires i < |db.institutions| && db.institutions[i].name != ""
    requires HasNoUpper(db.institutions[i].name)
    ensures InstitutionVerified(db, Some(Institutions(db).institutions[i]))
  {
    var name := db.institutions[i].name;
    LowerOfLowerCase(name);
    ContainsAt(name, name, 0);
    assert SameInstitution(Lower(name), db.institutions[i].name);
  }
}
