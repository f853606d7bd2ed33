/**
 * The backend's certificate scoring rule, `CertificateProcessor.verify_against_database`
 * in python_backend/main.py, and the two mock tables it consults.
 *
 * The rule is given twice: `Verify` states it as a composition of small pure
 * steps (institution, record scan, graduation year, certificate format,
 * floors, flag penalty, clamp), and the method `VerifyAgainstDatabase` runs it
 * the way the source does — appending to three lists and accumulating a
 * confidence score across loops that `break` — and is proved to compute
 * exactly `Verify`. The properties the rule promises are lemmas about `Verify`.
 *
 * Confidence is a `real`, computed exactly. The source mixes Python ints and
 * floats, so its sums (the 0.8 partial-name weight, the course similarity)
 * and the match percentage are rounded to the nearest double at each step;
 * that rounding is not modelled.
 */
module Scoring {
  import opened Wrappers
  import opened Text
  import opened Formats

  /** `CertificateData`: every field optional, as extracted from the OCR text. */
  datatype CertificateData = CertificateData(
    studentName: Option<string>,
    rollNumber: Option<string>,
    course: Option<string>,
    institution: Option<string>,
    graduationYear: Option<int>,
    certificateNumber: Option<string>,
    grade: Option<string>,
    issueDate: Option<string>)

  /** Python truthiness of an optional string: neither `None` nor `""`. */
  predicate Present(s: Option<string>) {
    s.Some? && s.value != ""
  }

  /** Python truthiness of an optional year: neither `None` nor `0`. */
  predicate YearPresent(y: Option<int>) {
    y.Some? && y.value != 0
  }

  /** One entry of `VERIFIED_INSTITUTIONS`, keyed by its lower-case name. */
  datatype Institution = Institution(
    name: string,
    established: int,
    location: string,
    courses: seq<string>,
    certificateFormat: Pattern)

  /** One entry of `VERIFIED_CERTIFICATES`. */
  datatype CertificateRecord = CertificateRecord(
    certificateNumber: string,
    studentName: string,
    rollNumber: string,
    course: string,
    institution: string,
    graduationYear: int,
    grade: string)

  /** The two tables, in their insertion order. */
  datatype Database = Database(institutions: seq<Institution>, certificates: seq<CertificateRecord>)

  const VerifiedInstitutions: seq<Institution> := [
    Institution("ranchi university", 1960, "ranchi, jharkhand",
      ["bachelor of technology", "bachelor of science", "master of science", "bachelor of arts"],
      RanchiFormat),
    Institution("nit jamshedpur", 1960, "jamshedpur, jharkhand",
      ["bachelor of technology", "master of technology", "phd"],
      NitFormat),
    Institution("jharkhand university", 1992, "dhanbad, jharkhand",
      ["bachelor of arts", "bachelor of science", "master of arts"],
      JharkhandFormat)
  ]

  const VerifiedCertificates: seq<CertificateRecord> := [
    CertificateRecord("RU/CSE/2024/001", "rajesh kumar singh", "CSE2020001",
      "bachelor of technology in computer science", "ranchi university", 2024,
      "first class with distinction"),
    CertificateRecord("NIT/CS/2024/0156", "priya sharma", "CS20B1001",
      "bachelor of technology in computer science", "nit jamshedpur", 2024,
      "first class")
  ]

  const MockDatabase: Database := Database(VerifiedInstitutions, VerifiedCertificates)

  /** `calculate_text_similarity`: TF-IDF cosine similarity, left abstract. */
  type Similarity = (string, string) -> real

  ghost predicate SimilarityInRange(sim: Similarity) {
    forall a, b :: 0.0 <= sim(a, b) <= 1.0
  }

  /** The year the rule treats as the present. */
  const CurrentYear := 2024
  const EarliestYear := 1950

  /** The flags the rule can raise; `Text()` is the string the service reports. */
  datatype Flag = InstitutionNotFound | FutureYear | UnrealisticYear | FormatMismatch {
    function Text(): string {
      match this
      case InstitutionNotFound => "Institution not found in verified database"
      case FutureYear => "Future graduation year detected"
      case UnrealisticYear => "Unrealistic graduation year"
      case FormatMismatch => "Certificate number format doesn't match institution standard"
    }
  }

  /** The names of matched fields; `Text()` is the string the service reports. */
  datatype Label =
    | InstitutionLabel | NumberLabel | NameLabel | PartialNameLabel | RollLabel | CourseLabel | YearLabel | FormatLabel
  {
    function Text(): string {
      match this
      case InstitutionLabel => "Institution"
      case NumberLabel => "Certificate Number"
      case NameLabel => "Student Name"
      case PartialNameLabel => "Student Name (Partial)"
      case RollLabel => "Roll Number"
      case CourseLabel => "Course"
      case YearLabel => "Graduation Year"
      case FormatLabel => "Certificate Format"
    }
  }

  /**
   * The discrepancies the rule reports, with the text it gives each: the value
   * found on the certificate first, then the recorded one.
   */
  datatype Discrepancy =
    | UnknownInstitution(name: string)
    | NumberMismatch(found: string, recorded: string)
    | NameMismatch(found: string, recorded: string)
    | RollMismatch(found: string, recorded: string)
    | CourseMismatch(found: string, recorded: string)
  {
    function Text(): string {
      match this
      case UnknownInstitution(name) => "Unknown institution: " + name
      case NumberMismatch(found, recorded) => "Certificate number mismatch: " + found + " vs " + recorded
      case NameMismatch(found, recorded) => "Student name mismatch: " + found + " vs " + recorded
      case RollMismatch(found, recorded) => "Roll number mismatch: " + found + " vs " + recorded
      case CourseMismatch(found, recorded) => "Course mismatch: " + found + " vs " + recorded
    }
  }

  /** The backend's `VerificationResult`; `matched_fields` goes through a `set`, so its order is lost. */
  datatype VerificationResult = VerificationResult(
    isValid: bool,
    confidence: real,
    flags: seq<Flag>,
    matchedFields: set<Label>,
    discrepancies: seq<Discrepancy>,
    institutionVerified: bool,
    extractedData: CertificateData,
    timestamp: string)

  function Max(a: real, b: real): real { if a >= b then a else b }
  function Min(a: real, b: real): real { if a <= b then a else b }

  // ---------------------------------------------------------------------
  // Institution

  /** `known in key or key in known`. */
  predicate SameInstitution(key: string, known: string) {
    Contains(key, known) || Contains(known, key)
  }

  /** Some table entry names the (lower-cased) institution, in either direction. */
  predicate InstitutionVerified(db: Database, institution: Option<string>) {
    Present(institution)
    && exists i | 0 <= i < |db.institutions| :: SameInstitution(Lower(institution.value), db.institutions[i].name)
  }

  /** What one stage contributes: flags, matched labels, discrepancies and points. */
  datatype Step = Step(flags: seq<Flag>, matched: seq<Label>, discrepancies: seq<Discrepancy>, points: real)

  const NoStep := Step([], [], [], 0.0)

  function InstitutionStep(db: Database, institution: Option<string>): (r: Step)
    ensures r.flags == [] || r.flags == [InstitutionNotFound]
    ensures r.matched == [] || r.matched == [InstitutionLabel]
    ensures r.discrepancies != [] <==> r.flags != []
    ensures r.discrepancies != [] ==> institution.Some? && r.discrepancies == [UnknownInstitution(institution.value)]
  {
    if !Present(institution) then NoStep
    else if InstitutionVerified(db, institution) then Step([], [InstitutionLabel], [], 20.0)
    else Step([InstitutionNotFound], [], [UnknownInstitution(institution.value)], 0.0)
  }

  // ---------------------------------------------------------------------
  // Record scan

  /** The outcome of comparing one field with one record. */
  datatype FieldCheck = Skipped | Matched(weight: real, tag: Label) | Mismatched(message: Discrepancy)

  function NumberCheck(data: CertificateData, cert: CertificateRecord): (r: FieldCheck)
    ensures r.Matched? ==> r.tag == NumberLabel && r.weight == 1.0
  {
    if !(Present(data.certificateNumber) && cert.certificateNumber != "") then Skipped
    else if Upper(data.certificateNumber.value) == Upper(cert.certificateNumber) then Matched(1.0, NumberLabel)
    else Mismatched(NumberMismatch(data.certificateNumber.value, cert.certificateNumber))
  }

  function NameCheck(data: CertificateData, cert: CertificateRecord, sim: Similarity): (r: FieldCheck)
    ensures r.Matched? ==> (r.tag == NameLabel && r.weight == 1.0) || (r.tag == PartialNameLabel && r.weight == 0.8)
  {
    if !(Present(data.studentName) && cert.studentName != "") then Skipped
    else if Lower(data.studentName.value) == Lower(cert.studentName) then Matched(1.0, NameLabel)
    else if sim(Lower(data.studentName.value), Lower(cert.studentName)) > 0.8 then Matched(0.8, PartialNameLabel)
    else Mismatched(NameMismatch(data.studentName.value, cert.studentName))
  }

  function RollCheck(data: CertificateData, cert: CertificateRecord): (r: FieldCheck)
    ensures r.Matched? ==> r.tag == RollLabel && r.weight == 1.0
  {
    if !(Present(data.rollNumber) && cert.rollNumber != "") then Skipped
    else if Upper(data.rollNumber.value) == Upper(cert.rollNumber) then Matched(1.0, RollLabel)
    else Mismatched(RollMismatch(data.rollNumber.value, cert.rollNumber))
  }

  function CourseCheck(data: CertificateData, cert: CertificateRecord, sim: Similarity): (r: FieldCheck)
    ensures r.Matched? ==> r.tag == CourseLabel && r.weight > 0.7
  {
    if !(Present(data.course) && cert.course != "") then Skipped
    else
      var similarity := sim(Lower(data.course.value), Lower(cert.course));
      if similarity > 0.7 then Matched(similarity, CourseLabel)
      else Mismatched(CourseMismatch(data.course.value, cert.course))
  }

  /**
   * The running totals of the record loop's body: fields compared, the score
   * they earned, the labels of those that matched and the discrepancies of
   * those that did not.
   */
  datatype Tally = Tally(totalFields: nat, matches: real, matched: seq<Label>, mismatches: seq<Discrepancy>)

  const NoTally := Tally(0, 0.0, [], [])

  /** The totals after one more field comparison. */
  function Add(t: Tally, f: FieldCheck): Tally {
    match f
    case Skipped => t
    case Matched(w, l) => t.(totalFields := t.totalFields + 1, matches := t.matches + w, matched := t.matched + [l])
    case Mismatched(m) => t.(totalFields := t.totalFields + 1, mismatches := t.mismatches + [m])
  }

  /** The four field comparisons against one record, in the source's order. */
  datatype RecordCheck = RecordCheck(number: FieldCheck, name: FieldCheck, roll: FieldCheck, course: FieldCheck) {
    function Sum(): Tally {
      Add(Add(Add(Add(NoTally, number), name), roll), course)
    }
    function Total(): nat { Sum().totalFields }
    function Matches(): real { Sum().matches }
    function Labels(): seq<Label> { Sum().matched }
    function Messages(): seq<Discrepancy> { Sum().mismatches }
    function Percentage(): real
      requires Total() > 0
    {
      (Matches() / Total() as real) * 100.0
    }
    /**
     * The record is taken as the certificate's own: more than 80% of the
     * compared fields agree (`Percentage() > 80`, see `DecisiveIffAbove80`,
     * stated without the division).
     */
    predicate Decisive() {
      Total() > 0 && Matches() * 100.0 > 80.0 * Total() as real
    }
  }

  /** A record ends the scan exactly when its match percentage exceeds 80. */
  lemma DecisiveIffAbove80(rc: RecordCheck)
    ensures rc.Decisive() <==> rc.Total() > 0 && rc.Percentage() > 80.0
  {
    if rc.Total() > 0 {
      var t := rc.Total() as real;
      var m := rc.Matches();
      assert rc.Percentage() * t == m * 100.0;
    }
  }

  /** The labels a record comparison can produce. */
  const RecordLabels: set<Label> := {NumberLabel, NameLabel, PartialNameLabel, RollLabel, CourseLabel}

  function CheckRecord(data: CertificateData, cert: CertificateRecord, sim: Similarity): RecordCheck {
    RecordCheck(NumberCheck(data, cert), NameCheck(data, cert, sim), RollCheck(data, cert), CourseCheck(data, cert, sim))
  }

  lemma RecordLabelsOnly(data: CertificateData, cert: CertificateRecord, sim: Similarity)
    ensures forall l | l in CheckRecord(data, cert, sim).Labels() :: l in RecordLabels
  {
  }

  /** A record comparison never reports an unknown institution. */
  lemma RecordMessagesOnly(data: CertificateData, cert: CertificateRecord, sim: Similarity)
    ensures forall m | m in CheckRecord(data, cert, sim).Messages() :: !m.UnknownInstitution?
  {
  }

  /** The comparison with every record of the table, in table order. */
  function CompareAll(data: CertificateData, certs: seq<CertificateRecord>, sim: Similarity): (r: seq<RecordCheck>)
    ensures |r| == |certs|
    decreases |certs|
  {
    if certs == [] then [] else [CheckRecord(data, certs[0], sim)] + CompareAll(data, certs[1..], sim)
  }

  lemma {:induction false} CompareAllAt(data: CertificateData, certs: seq<CertificateRecord>, sim: Similarity, k: nat)
    requires k < |certs|
    ensures CompareAll(data, certs, sim)[k] == CheckRecord(data, certs[k], sim)
    decreases k
  {
    if k > 0 {
      CompareAllAt(data, certs[1..], sim, k - 1);
    }
  }

  /**
   * The labels and messages of every record compared, and the percentage of
   * the record that ended the scan, if one did.
   */
  datatype ScanOutcome = ScanOutcome(matched: seq<Label>, discrepancies: seq<Discrepancy>, exact: Option<real>)

  /**
   * The record loop from record `k` on, with `matched` and `mismatches`
   * gathered so far: each record compared appends its labels and messages,
   * and the first decisive record ends the loop with its percentage.
   */
  function ScanFrom(checks: seq<RecordCheck>, k: nat, matched: seq<Label>, mismatches: seq<Discrepancy>): (s: ScanOutcome)
    requires k <= |checks|
    ensures s.exact.Some? ==> s.exact.value > 80.0
    decreases |checks| - k
  {
    if k == |checks| then ScanOutcome(matched, mismatches, None)
    else
      var rc := checks[k];
      if rc.Decisive() then
        DecisiveIffAbove80(rc);
        ScanOutcome(matched + rc.Labels(), mismatches + rc.Messages(), Some(rc.Percentage()))
      else ScanFrom(checks, k + 1, matched + rc.Labels(), mismatches + rc.Messages())
  }

  function Scan(data: CertificateData, certs: seq<CertificateRecord>, sim: Similarity): ScanOutcome {
    ScanFrom(CompareAll(data, certs, sim), 0, [], [])
  }

  /** One turn of the record loop, with the test written as the source writes it. */
  lemma ScanFromStep(checks: seq<RecordCheck>, k: nat, matched: seq<Label>, mismatches: seq<Discrepancy>)
    requires k < |checks|
    ensures var rc := checks[k];
      ScanFrom(checks, k, matched, mismatches) ==
        if rc.Total() > 0 && rc.Percentage() > 80.0 then
          ScanOutcome(matched + rc.Labels(), mismatches + rc.Messages(), Some(rc.Percentage()))
        else ScanFrom(checks, k + 1, matched + rc.Labels(), mismatches + rc.Messages())
  {
    DecisiveIffAbove80(checks[k]);
  }

  // ---------------------------------------------------------------------
  // Graduation year and certificate format

  function YearStep(year: Option<int>): (r: Step)
    ensures r.flags == [] || r.flags == [FutureYear] || r.flags == [UnrealisticYear]
    ensures r.matched == [] || r.matched == [YearLabel]
    ensures r.discrepancies == []
  {
    if !YearPresent(year) then NoStep
    else if year.value > CurrentYear then Step([FutureYear], [], [], -20.0)
    else if year.value < EarliestYear then Step([UnrealisticYear], [], [], -30.0)
    else Step([], [YearLabel], [], 10.0)
  }

  /** The first table entry whose name occurs in `key` (only that direction), from index `from` on. */
  function FirstNamedIn(key: string, table: seq<Institution>, from: nat): (r: Option<nat>)
    requires from <= |table|
    ensures r.Some? ==> from <= r.value < |table| && Contains(key, table[r.value].name)
    ensures r.Some? ==> forall j | from <= j < r.value :: !Contains(key, table[j].name)
    ensures r.None? <==> forall j | from <= j < |table| :: !Contains(key, table[j].name)
    decreases |table| - from
  {
    if from == |table| then None
    else if Contains(key, table[from].name) then Some(from)
    else FirstNamedIn(key, table, from + 1)
  }

  /** When `i` is the first entry from `from` on whose name occurs in `key`, the search finds `i`. */
  lemma {:induction false} FirstNamedFrom(key: string, table: seq<Institution>, from: nat, i: nat)
    requires from <= i < |table| && Contains(key, table[i].name)
    requires forall j | from <= j < i :: !Contains(key, table[j].name)
    ensures FirstNamedIn(key, table, from) == Some(i)
    decreases i - from
  {
    if from < i {
      FirstNamedFrom(key, table, from + 1, i);
    }
  }

  /** The format of the first entry whose name occurs in `key`. */
  function FirstFormat(table: seq<Institution>, key: string): Option<Pattern> {
    match FirstNamedIn(key, table, 0)
    case None => None
    case Some(i) => Some(table[i].certificateFormat)
  }

  /** The format the check uses, if it runs at all. */
  function FormatToCheck(db: Database, institution: Option<string>, number: Option<string>, verified: bool)
    : Option<Pattern>
  {
    if !(Present(number) && verified && institution.Some?) then None
    else FirstFormat(db.institutions, Lower(institution.value))
  }

  function FormatStep(db: Database, institution: Option<string>, number: Option<string>, verified: bool): (r: Step)
    ensures r.flags == [] || r.flags == [FormatMismatch]
    ensures r.matched == [] || r.matched == [FormatLabel]
    ensures r.discrepancies == []
    ensures r.points == (if r.matched == [FormatLabel] then 15.0 else if r.flags == [FormatMismatch] then -15.0 else 0.0)
  {
    match FormatToCheck(db, institution, number, verified)
    case None => NoStep
    case Some(p) =>
      if MatchesPrefix(p, number.value) then Step([], [FormatLabel], [], 15.0)
      else Step([FormatMismatch], [], [], -15.0)
  }

  // ---------------------------------------------------------------------
  // Final confidence

  /** The minimum score granted before penalties. */
  function FloorValue(exact: bool, matchedCount: nat): real {
    if exact then 85.0
    else if matchedCount >= 3 then 70.0
    else if matchedCount >= 2 then 50.0
    else 20.0
  }

  function Clamp(c: real): (r: real)
    ensures 0.0 <= r <= 100.0
    ensures 0.0 <= c <= 100.0 ==> r == c
  {
    Max(0.0, Min(100.0, c))
  }

  /** Floor, ten points off per flag, clamp to [0, 100]. */
  function FinalConfidence(raw: real, exact: bool, matchedCount: nat, flagCount: nat): real {
    Clamp(Max(raw, FloorValue(exact, matchedCount)) - (flagCount * 10) as real)
  }

  /** Everything the rule gathers before it settles the score. */
  datatype Assessment = Assessment(
    verified: bool,
    flags: seq<Flag>,
    matched: seq<Label>,
    discrepancies: seq<Discrepancy>,
    exact: bool,
    raw: real)

  /** The four stages put together in the source's order. */
  function Combine(verified: bool, inst: Step, scan: ScanOutcome, year: Step, format: Step): Assessment {
    var afterScan := if scan.exact.Some? then Max(inst.points, scan.exact.value) else inst.points;
    Assessment(
      verified,
      inst.flags + year.flags + format.flags,
      inst.matched + scan.matched + year.matched + format.matched,
      inst.discrepancies + scan.discrepancies,
      scan.exact.Some?,
      afterScan + year.points + format.points)
  }

  function Assess(db: Database, data: CertificateData, sim: Similarity): Assessment {
    var verified := InstitutionVerified(db, data.institution);
    Combine(verified, InstitutionStep(db, data.institution), Scan(data, db.certificates, sim),
      YearStep(data.graduationYear), FormatStep(db, data.institution, data.certificateNumber, verified))
  }

  /**
   * The result of `verify_against_database`. At most two flags can arise (an
   * unknown institution excludes a format check, the two year flags exclude
   * each other), so validity is decided by the confidence alone.
   */
  function Verify(db: Database, data: CertificateData, sim: Similarity, timestamp: string): (r: VerificationResult)
    ensures 0.0 <= r.confidence <= 100.0
    ensures |r.flags| <= 2
    ensures r.isValid <==> r.confidence >= 60.0
    ensures r.institutionVerified <==>
      Present(data.institution)
      && exists i | 0 <= i < |db.institutions| :: SameInstitution(Lower(data.institution.value), db.institutions[i].name)
    ensures r.extractedData == data && r.timestamp == timestamp
  {
    var a := Assess(db, data, sim);
    var confidence := FinalConfidence(a.raw, a.exact, |a.matched|, |a.flags|);
    VerificationResult(
      confidence >= 60.0 && |a.flags| <= 2,
      confidence,
      a.flags,
      (set f | f in a.matched),
      a.discrepancies,
      a.verified,
      data,
      timestamp)
  }

  // ---------------------------------------------------------------------
  // The source's procedure

  /** The certificate-number block of the record loop: equal ignoring case. */
  method CompareNumber(data: CertificateData, cert: CertificateRecord, t: Tally) returns (r: Tally)
    ensures r == Add(t, NumberCheck(data, cert))
  {
    r := t;
    if Present(data.certificateNumber) && cert.certificateNumber != "" {
      r := r.(totalFields := r.totalFields + 1);
      if Upper(data.certificateNumber.value) == Upper(cert.certificateNumber) {
        r := r.(matches := r.matches + 1.0, matched := r.matched + [NumberLabel]);
      } else {
        r := r.(mismatches := r.mismatches + [NumberMismatch(data.certificateNumber.value, cert.certificateNumber)]);
      }
    }
  }

  /** The student-name block: equal ignoring case, or similar enough for 0.8. */
  method CompareName(data: CertificateData, cert: CertificateRecord, sim: Similarity, t: Tally) returns (r: Tally)
    ensures r == Add(t, NameCheck(data, cert, sim))
  {
    r := t;
    if Present(data.studentName) && cert.studentName != "" {
      r := r.(totalFields := r.totalFields + 1);
      if Lower(data.studentName.value) == Lower(cert.studentName) {
        r := r.(matches := r.matches + 1.0, matched := r.matched + [NameLabel]);
      } else {
        var similarity := sim(Lower(data.studentName.value), Lower(cert.studentName));
        if similarity > 0.8 {
          r := r.(matches := r.matches + 0.8, matched := r.matched + [PartialNameLabel]);
        } else {
          r := r.(mismatches := r.mismatches + [NameMismatch(data.studentName.value, cert.studentName)]);
        }
      }
    }
  }

  /** The roll-number block: equal ignoring case. */
  method CompareRoll(data: CertificateData, cert: CertificateRecord, t: Tally) returns (r: Tally)
    ensures r == Add(t, RollCheck(data, cert))
  {
    r := t;
    if Present(data.rollNumber) && cert.rollNumber != "" {
      r := r.(totalFields := r.totalFields + 1);
      if Upper(data.rollNumber.value) == Upper(cert.rollNumber) {
        r := r.(matches := r.matches + 1.0, matched := r.matched + [RollLabel]);
      } else {
        r := r.(mismatches := r.mismatches + [RollMismatch(data.rollNumber.value, cert.rollNumber)]);
      }
    }
  }

  /** The course block: similar enough, scoring the similarity itself. */
  method CompareCourse(data: CertificateData, cert: CertificateRecord, sim: Similarity, t: Tally) returns (r: Tally)
    ensures r == Add(t, CourseCheck(data, cert, sim))
  {
    r := t;
    if Present(data.course) && cert.course != "" {
      r := r.(totalFields := r.totalFields + 1);
      var courseSimilarity := sim(Lower(data.course.value), Lower(cert.course));
      if courseSimilarity > 0.7 {
        r := r.(matches := r.matches + courseSimilarity, matched := r.matched + [CourseLabel]);
      } else {
        r := r.(mismatches := r.mismatches + [CourseMismatch(data.course.value, cert.course)]);
      }
    }
  }

  /** The body of the record loop: the four field comparisons against one record. */
  method CompareWithRecord(data: CertificateData, cert: CertificateRecord, sim: Similarity) returns (t: Tally)
    ensures t == CheckRecord(data, cert, sim).Sum()
  {
    t := NoTally;
    t := CompareNumber(data, cert, t);
    t := CompareName(data, cert, sim, t);
    t := CompareRoll(data, cert, t);
    t := CompareCourse(data, cert, sim, t);
  }

  /** The institution loop: the first known name that the key contains or is contained in ends it. */
  method FindInstitution(table: seq<Institution>, key: string) returns (found: bool)
    ensures found <==> exists i | 0 <= i < |table| :: SameInstitution(key, table[i].name)
  {
    found := false;
    var i := 0;
    while i < |table|
      invariant 0 <= i <= |table|
      invariant forall j | 0 <= j < i :: !SameInstitution(key, table[j].name)
    {
      if SameInstitution(key, table[i].name) {
        found := true;
        break;
      }
      i := i + 1;
    }
  }

  /**
   * The record loop: compare with each record in turn and stop at the first
   * whose match percentage exceeds 80. Labels and mismatches of the records
   * compared before it are kept.
   */
  method ScanRecords(data: CertificateData, certs: seq<CertificateRecord>, sim: Similarity)
    returns (matched: seq<Label>, mismatches: seq<Discrepancy>, exactMatch: bool, percentage: real)
    ensures Scan(data, certs, sim) == ScanOutcome(matched, mismatches, if exactMatch then Some(percentage) else None)
  {
    matched, mismatches, exactMatch, percentage := [], [], false, 0.0;
    ghost var checks := CompareAll(data, certs, sim);
    var k := 0;
    while k < |certs|
      invariant 0 <= k <= |certs|
      invariant ScanFrom(checks, k, matched, mismatches) == Scan(data, certs, sim)
      invariant !exactMatch
    {
      var t := CompareWithRecord(data, certs[k], sim);
      CompareAllAt(data, certs, sim, k);
      ScanFromStep(checks, k, matched, mismatches);
      matched := matched + t.matched;
      mismatches := mismatches + t.mismatches;
      if t.totalFields > 0 {
        var matchPercentage := (t.matches / t.totalFields as real) * 100.0;
        if matchPercentage > 80.0 {
          exactMatch, percentage := true, matchPercentage;
          break;
        }
      }
      k := k + 1;
    }
  }

  /** The format loop: the first entry whose name the key contains (one direction only) gives the format. */
  method FindFormat(table: seq<Institution>, key: string) returns (format: Option<Pattern>)
    ensures format == FirstFormat(table, key)
  {
    format := None;
    var i := 0;
    while i < |table|
      invariant 0 <= i <= |table|
      invariant forall j | 0 <= j < i :: !Contains(key, table[j].name)
    {
      if Contains(key, table[i].name) {
        format := Some(table[i].certificateFormat);
        FirstNamedFrom(key, table, 0, i);
        break;
      }
      i := i + 1;
    }
  }

  /**
   * The first part of `verify_against_database`: the institution, record,
   * year and format checks, appending to the three lists and accumulating the
   * score before floors and penalties.
   */
  method Gather(db: Database, data: CertificateData, sim: Similarity)
    returns (institutionVerified: bool, flags: seq<Flag>, matchedFields: seq<Label>, discrepancies: seq<Discrepancy>,
             exactMatch: bool, confidence: real)
    ensures Assess(db, data, sim)
      == Assessment(institutionVerified, flags, matchedFields, discrepancies, exactMatch, confidence)
  {
    flags := [];
    matchedFields := [];
    discrepancies := [];
    confidence := 0.0;
    institutionVerified := false;

    if Present(data.institution) {
      institutionVerified := FindInstitution(db.institutions, Lower(data.institution.value));
      if institutionVerified {
        matchedFields := matchedFields + [InstitutionLabel];
        confidence := confidence + 20.0;
      } else {
        flags := flags + [InstitutionNotFound];
        discrepancies := discrepancies + [UnknownInstitution(data.institution.value)];
      }
    }

    ghost var inst := InstitutionStep(db, data.institution);
    assert institutionVerified == InstitutionVerified(db, data.institution);
    assert flags == inst.flags && matchedFields == inst.matched;
    assert discrepancies == inst.discrepancies && confidence == inst.points;

    var matched, mismatches, percentage;
    matched, mismatches, exactMatch, percentage := ScanRecords(data, db.certificates, sim);
    matchedFields := matchedFields + matched;
    discrepancies := discrepancies + mismatches;
    if exactMatch {
      confidence := Max(confidence, percentage);
    }

    ghost var scan := Scan(data, db.certificates, sim);
    ghost var afterScan := confidence;
    assert afterScan == if scan.exact.Some? then Max(inst.points, scan.exact.value) else inst.points;

    if YearPresent(data.graduationYear) {
      var year := data.graduationYear.value;
      if year > CurrentYear {
        flags := flags + [FutureYear];
        confidence := confidence - 20.0;
      } else if year < EarliestYear {
        flags := flags + [UnrealisticYear];
        confidence := confidence - 30.0;
      } else {
        matchedFields := matchedFields + [YearLabel];
        confidence := confidence + 10.0;
      }
    }

    ghost var year := YearStep(data.graduationYear);
    assert flags == inst.flags + year.flags;
    assert matchedFields == inst.matched + scan.matched + year.matched;
    assert confidence == afterScan + year.points;

    if Present(data.certificateNumber) && institutionVerified {
      var format := FindFormat(db.institutions, Lower(data.institution.value));
      if format.Some? {
        if MatchesPrefix(format.value, data.certificateNumber.value) {
          matchedFields := matchedFields + [FormatLabel];
          confidence := confidence + 15.0;
        } else {
          flags := flags + [FormatMismatch];
          confidence := confidence - 15.0;
        }
      }
    }

    ghost var a := Assess(db, data, sim);
    assert flags == a.flags && matchedFields == a.matched && discrepancies == a.discrepancies;
  }

  /** `verify_against_database`: gather, apply the floors, ten points off per flag, clamp, decide. */
  method VerifyAgainstDatabase(db: Database, data: CertificateData, sim: Similarity, timestamp: string)
    returns (r: VerificationResult)
    ensures r == Verify(db, data, sim, timestamp)
  {
    var institutionVerified, flags, matchedFields, discrepancies, exactMatch, confidence := Gather(db, data, sim);

    if exactMatch {
      confidence := Max(confidence, 85.0);
    } else if |matchedFields| >= 3 {
      confidence := Max(confidence, 70.0);
    } else if |matchedFields| >= 2 {
      confidence := Max(confidence, 50.0);
    } else {
      confidence := Max(confidence, 20.0);
    }
    confidence := confidence - (|flags| * 10) as real;
    confidence := Max(0.0, Min(100.0, confidence));

    var isValid := confidence >= 60.0 && |flags| <= 2;
    r := VerificationResult(isValid, confidence, flags, (set f | f in matchedFields), discrepancies,
      institutionVerified, data, timestamp);
  }

  // ---------------------------------------------------------------------
  // Properties of the rule

  /** The scan only ever appends to what it was given. */
  lemma {:induction false} ScanFromExtends(checks: seq<RecordCheck>, from: nat, matched: seq<Label>, mismatches: seq<Discrepancy>)
    requires from <= |checks|
    ensures matched <= ScanFrom(checks, from, matched, mismatches).matched
    ensures mismatches <= ScanFrom(checks, from, matched, mismatches).discrepancies
    decreases |checks| - from
  {
    if from < |checks| && !checks[from].Decisive() {
      var rc := checks[from];
      ScanFromExtends(checks, from + 1, matched + rc.Labels(), mismatches + rc.Messages());
    }
  }

  lemma {:induction false} ScanFromStops(checks: seq<RecordCheck>, from: nat, matched: seq<Label>, mismatches: seq<Discrepancy>)
    requires from <= |checks|
    ensures ScanFrom(checks, from, matched, mismatches).exact.Some?
      <==> exists k | from <= k < |checks| :: checks[k].Decisive()
    ensures ScanFrom(checks, from, matched, mismatches).exact.Some? ==>
      exists k | from <= k < |checks| ::
        && checks[k].Decisive()
        && ScanFrom(checks, from, matched, mismatches).exact.value == checks[k].Percentage()
        && forall j | from <= j < k :: !checks[j].Decisive()
    decreases |checks| - from
  {
    if from < |checks| && !checks[from].Decisive() {
      var rc := checks[from];
      ScanFromStops(checks, from + 1, matched + rc.Labels(), mismatches + rc.Messages());
    }
  }

  /**
   * The scan ends at the first record whose match percentage exceeds 80, and
   * reports that record's percentage; without such a record it reads them all.
   */
  lemma ScanStopsAtFirstDecisive(data: CertificateData, certs: seq<CertificateRecord>, sim: Similarity)
    ensures Scan(data, certs, sim).exact.Some?
      <==> exists k | 0 <= k < |certs| :: CheckRecord(data, certs[k], sim).Decisive()
    ensures Scan(data, certs, sim).exact.Some? ==>
      exists k | 0 <= k < |certs| ::
        && CheckRecord(data, certs[k], sim).Decisive()
        && Scan(data, certs, sim).exact.value == CheckRecord(data, certs[k], sim).Percentage()
        && forall j | 0 <= j < k :: !CheckRecord(data, certs[j], sim).Decisive()
  {
    var checks := CompareAll(data, certs, sim);
    forall k | 0 <= k < |certs| ensures checks[k] == CheckRecord(data, certs[k], sim) {
      CompareAllAt(data, certs, sim, k);
    }
    ScanFromStops(checks, 0, [], []);
  }

  lemma {:induction false} ScanFromKeeps(
    checks: seq<RecordCheck>, from: nat, k: nat, matched: seq<Label>, mismatches: seq<Discrepancy>)
    requires from <= k < |checks|
    requires forall j | from <= j < k :: !checks[j].Decisive()
    ensures forall m | m in checks[k].Messages() :: m in ScanFrom(checks, from, matched, mismatches).discrepancies
    ensures forall l | l in checks[k].Labels() :: l in ScanFrom(checks, from, matched, mismatches).matched
    decreases k - from
  {
    var rc := checks[from];
    if from < k {
      ScanFromKeeps(checks, from + 1, k, matched + rc.Labels(), mismatches + rc.Messages());
    } else if !rc.Decisive() {
      var rest := ScanFrom(checks, from + 1, matched + rc.Labels(), mismatches + rc.Messages());
      ScanFromExtends(checks, from + 1, matched + rc.Labels(), mismatches + rc.Messages());
      forall m | m in rc.Messages() ensures m in rest.discrepancies {
        var i :| 0 <= i < |rc.Messages()| && rc.Messages()[i] == m;
        assert rest.discrepancies[|mismatches| + i] == m;
      }
      forall l | l in rc.Labels() ensures l in rest.matched {
        var i :| 0 <= i < |rc.Labels()| && rc.Labels()[i] == l;
        assert rest.matched[|matched| + i] == l;
      }
    }
  }

  /**
   * Labels and mismatches of every record compared up to the decisive one
   * stay in the output: nothing is rolled back when a record does not match.
   */
  lemma MismatchesAreNotRolledBack(data: CertificateData, certs: seq<CertificateRecord>, sim: Similarity, k: nat)
    requires k < |certs|
    requires forall j | 0 <= j < k :: !CheckRecord(data, certs[j], sim).Decisive()
    ensures forall m | m in CheckRecord(data, certs[k], sim).Messages() :: m in Scan(data, certs, sim).discrepancies
    ensures forall l | l in CheckRecord(data, certs[k], sim).Labels() :: l in Scan(data, certs, sim).matched
  {
    var checks := CompareAll(data, certs, sim);
    forall j | 0 <= j <= k ensures checks[j] == CheckRecord(data, certs[j], sim) {
      CompareAllAt(data, certs, sim, j);
    }
    ScanFromKeeps(checks, 0, k, [], []);
  }

  lemma {:induction false} ScanFromLabels(checks: seq<RecordCheck>, from: nat, matched: seq<Label>, mismatches: seq<Discrepancy>)
    requires from <= |checks|
    requires forall k | 0 <= k < |checks| :: forall l | l in checks[k].Labels() :: l in RecordLabels
    requires forall l | l in matched :: l in RecordLabels
    ensures forall l | l in ScanFrom(checks, from, matched, mismatches).matched :: l in RecordLabels
    decreases |checks| - from
  {
    if from < |checks| && !checks[from].Decisive() {
      var rc := checks[from];
      ScanFromLabels(checks, from + 1, matched + rc.Labels(), mismatches + rc.Messages());
    }
  }

  /** Only record-comparison labels come out of the scan. */
  lemma ScanLabels(data: CertificateData, certs: seq<CertificateRecord>, sim: Similarity)
    ensures forall l | l in Scan(data, certs, sim).matched :: l in RecordLabels
  {
    var checks := CompareAll(data, certs, sim);
    forall k | 0 <= k < |checks| ensures forall l | l in checks[k].Labels() :: l in RecordLabels {
      CompareAllAt(data, certs, sim, k);
      RecordLabelsOnly(data, certs[k], sim);
    }
    ScanFromLabels(checks, 0, [], []);
  }

  lemma {:induction false} ScanFromMessages(checks: seq<RecordCheck>, from: nat, matched: seq<Label>, mismatches: seq<Discrepancy>)
    requires from <= |checks|
    requires forall k | 0 <= k < |checks| :: forall m | m in checks[k].Messages() :: !m.UnknownInstitution?
    requires forall m | m in mismatches :: !m.UnknownInstitution?
    ensures forall m | m in ScanFrom(checks, from, matched, mismatches).discrepancies :: !m.UnknownInstitution?
    decreases |checks| - from
  {
    if from < |checks| && !checks[from].Decisive() {
      var rc := checks[from];
      ScanFromMessages(checks, from + 1, matched + rc.Labels(), mismatches + rc.Messages());
    }
  }

  /** The scan never reports an unknown institution. */
  lemma ScanMessages(data: CertificateData, certs: seq<CertificateRecord>, sim: Similarity)
    ensures forall m | m in Scan(data, certs, sim).discrepancies :: !m.UnknownInstitution?
  {
    var checks := CompareAll(data, certs, sim);
    forall k | 0 <= k < |checks| ensures forall m | m in checks[k].Messages() :: !m.UnknownInstitution? {
      CompareAllAt(data, certs, sim, k);
      RecordMessagesOnly(data, certs[k], sim);
    }
    ScanFromMessages(checks, 0, [], []);
  }

  /** A field comparison scores at most one point. */
  predicate ScoresAtMostOne(f: FieldCheck) {
    f.Matched? ==> 0.0 <= f.weight <= 1.0
  }

  /** Adding a comparison that scores at most one point keeps the score within the fields counted. */
  lemma AddWithinCount(t: Tally, f: FieldCheck)
    requires 0.0 <= t.matches <= t.totalFields as real
    requires ScoresAtMostOne(f)
    ensures 0.0 <= Add(t, f).matches <= Add(t, f).totalFields as real
  {
  }

  lemma PercentageWithinCount(rc: RecordCheck)
    requires rc.Total() > 0 && 0.0 <= rc.Matches() <= rc.Total() as real
    ensures 0.0 <= rc.Percentage() <= 100.0
  {
    var m, t := rc.Matches(), rc.Total() as real;
    assert m / t <= 1.0 by {
      assert (m / t) * t == m;
    }
  }

  /** With similarity in [0, 1], no record matches more than 100%. */
  lemma PercentageAtMost100(data: CertificateData, cert: CertificateRecord, sim: Similarity)
    requires SimilarityInRange(sim)
    requires CheckRecord(data, cert, sim).Total() > 0
    ensures 0.0 <= CheckRecord(data, cert, sim).Percentage() <= 100.0
  {
    var rc := CheckRecord(data, cert, sim);
    var t1 := Add(NoTally, rc.number);
    var t2 := Add(t1, rc.name);
    var t3 := Add(t2, rc.roll);
    AddWithinCount(NoTally, rc.number);
    AddWithinCount(t1, rc.name);
    AddWithinCount(t2, rc.roll);
    AddWithinCount(t3, rc.course);
    PercentageWithinCount(rc);
  }

  /** What `Verify` reports is what `Assess` gathered, with the matched labels as a set. */
  lemma VerifyReports(db: Database, data: CertificateData, sim: Similarity, timestamp: string)
    ensures var r, a := Verify(db, data, sim, timestamp), Assess(db, data, sim);
      && r.flags == a.flags && r.discrepancies == a.discrepancies && r.institutionVerified == a.verified
      && forall l :: l in r.matchedFields <==> l in a.matched
  {
  }

  /** Only the institution stage can raise the institution flag or earn its label. */
  lemma CombineInstitution(verified: bool, inst: Step, scan: ScanOutcome, year: Step, format: Step)
    requires forall l | l in scan.matched :: l in RecordLabels
    requires InstitutionNotFound !in year.flags + format.flags
    requires InstitutionLabel !in year.matched + format.matched
    ensures var a := Combine(verified, inst, scan, year, format);
      && (InstitutionLabel in a.matched <==> InstitutionLabel in inst.matched)
      && multiset(a.flags)[InstitutionNotFound] == multiset(inst.flags)[InstitutionNotFound]
      && (inst.flags != [] ==> a.flags[0] == inst.flags[0])
      && (inst.discrepancies != [] ==> a.discrepancies[0] == inst.discrepancies[0])
  {
    var a := Combine(verified, inst, scan, year, format);
    assert a.flags == inst.flags + (year.flags + format.flags);
    assert a.matched == inst.matched + scan.matched + (year.matched + format.matched);
  }

  /**
   * An unknown-institution entry, if any, in front of entries none of which
   * is one: that entry occurs once and nothing after it is one.
   */
  lemma {:induction false} UnknownLeadsAlone(lead: seq<Discrepancy>, rest: seq<Discrepancy>, name: string)
    requires lead == [] || lead == [UnknownInstitution(name)]
    requires forall m | m in rest :: !m.UnknownInstitution?
    ensures var all := lead + rest;
      && (lead == [] ==> forall m | m in all :: !m.UnknownInstitution?)
      && (lead != [] ==>
            && multiset(all)[UnknownInstitution(name)] == 1
            && forall i | 0 < i < |all| :: !all[i].UnknownInstitution?)
  {
    var all := lead + rest;
    if lead != [] {
      assert UnknownInstitution(name) !in rest;
      assert multiset(all) == multiset{UnknownInstitution(name)} + multiset(rest);
      forall i | 0 < i < |all| ensures !all[i].UnknownInstitution? {
        assert all[i] == rest[i - 1];
      }
    }
  }

  lemma AssessInstitution(db: Database, data: CertificateData, sim: Similarity)
    ensures var a := Assess(db, data, sim);
      && (a.verified ==>
            && InstitutionLabel in a.matched && InstitutionNotFound !in a.flags
            && forall m | m in a.discrepancies :: !m.UnknownInstitution?)
      && (!Present(data.institution) ==>
            && InstitutionLabel !in a.matched && InstitutionNotFound !in a.flags
            && forall m | m in a.discrepancies :: !m.UnknownInstitution?)
      && (Present(data.institution) && !a.verified ==>
            && a.flags[0] == InstitutionNotFound
            && multiset(a.flags)[InstitutionNotFound] == 1
            && a.discrepancies[0] == UnknownInstitution(data.institution.value)
            && multiset(a.discrepancies)[UnknownInstitution(data.institution.value)] == 1
            && (forall i | 0 < i < |a.discrepancies| :: !a.discrepancies[i].UnknownInstitution?)
            && InstitutionLabel !in a.matched)
  {
    var verified := InstitutionVerified(db, data.institution);
    var inst := InstitutionStep(db, data.institution);
    var scan := Scan(data, db.certificates, sim);
    ScanLabels(data, db.certificates, sim);
    CombineInstitution(verified, inst, scan,
      YearStep(data.graduationYear), FormatStep(db, data.institution, data.certificateNumber, verified));
    ScanMessages(data, db.certificates, sim);
    UnknownLeadsAlone(inst.discrepancies, scan.discrepancies, if data.institution.Some? then data.institution.value else "");
  }

  /**
   * A verified institution earns the "Institution" label and no flag or
   * discrepancy of its own; an absent one earns neither; one that is present
   * but unverified yields exactly one flag, leading the list, and exactly one
   * "Unknown institution" discrepancy, leading its list.
   */
  lemma InstitutionOutcome(db: Database, data: CertificateData, sim: Similarity, timestamp: string)
    ensures var r := Verify(db, data, sim, timestamp);
      && (r.institutionVerified ==>
            && InstitutionLabel in r.matchedFields && InstitutionNotFound !in r.flags
            && forall m | m in r.discrepancies :: !m.UnknownInstitution?)
      && (!Present(data.institution) ==>
            && InstitutionLabel !in r.matchedFields && InstitutionNotFound !in r.flags
            && forall m | m in r.discrepancies :: !m.UnknownInstitution?)
      && (Present(data.institution) && !r.institutionVerified ==>
            && r.flags[0] == InstitutionNotFound
            && multiset(r.flags)[InstitutionNotFound] == 1
            && r.discrepancies[0] == UnknownInstitution(data.institution.value)
            && multiset(r.discrepancies)[UnknownInstitution(data.institution.value)] == 1
            && (forall i | 0 < i < |r.discrepancies| :: !r.discrepancies[i].UnknownInstitution?)
            && InstitutionLabel !in r.matchedFields)
  {
    VerifyReports(db, data, sim, timestamp);
    AssessInstitution(db, data, sim);
  }

  /** The record comparisons do not read the graduation year. */
  lemma {:induction false} CompareAllIgnoresYear(
    data: CertificateData, certs: seq<CertificateRecord>, sim: Similarity, year: Option<int>)
    ensures CompareAll(data.(graduationYear := year), certs, sim) == CompareAll(data, certs, sim)
    decreases |certs|
  {
    if certs != [] {
      CompareAllIgnoresYear(data, certs[1..], sim, year);
      assert CheckRecord(data.(graduationYear := year), certs[0], sim) == CheckRecord(data, certs[0], sim);
    }
  }

  /** The year stage adds its flags, labels and points to what the other stages give. */
  lemma CombineYear(verified: bool, inst: Step, scan: ScanOutcome, year: Step, format: Step)
    ensures var a, b := Combine(verified, inst, scan, year, format), Combine(verified, inst, scan, NoStep, format);
      && a.verified == b.verified && a.discrepancies == b.discrepancies && a.exact == b.exact
      && multiset(a.flags) == multiset(b.flags) + multiset(year.flags)
      && multiset(a.matched) == multiset(b.matched) + multiset(year.matched)
      && (year.flags == [] ==> a.flags == b.flags)
      && (year.matched == [] ==> a.matched == b.matched)
      && a.raw == b.raw + year.points
  {
    var a, b := Combine(verified, inst, scan, year, format), Combine(verified, inst, scan, NoStep, format);
    assert b.flags == inst.flags + format.flags;
    assert b.matched == inst.matched + scan.matched + format.matched;
  }

  /**
   * The graduation year, against the same certificate without one: a year
   * after 2024 adds the future-year flag and costs 20 points, one before 1950
   * adds the unrealistic-year flag and costs 30, any other adds the
   * "Graduation Year" label and 10 points; a missing or zero year changes nothing.
   */
  lemma GraduationYearRules(db: Database, data: CertificateData, sim: Similarity)
    ensures var a, b := Assess(db, data, sim), Assess(db, data.(graduationYear := None), sim);
      var y := data.graduationYear;
      && a.verified == b.verified && a.discrepancies == b.discrepancies && a.exact == b.exact
      && (!YearPresent(y) ==> a == b)
      && (YearPresent(y) && y.value > CurrentYear ==>
            multiset(a.flags) == multiset(b.flags) + multiset{FutureYear} && a.matched == b.matched && a.raw == b.raw - 20.0)
      && (YearPresent(y) && y.value < EarliestYear ==>
            multiset(a.flags) == multiset(b.flags) + multiset{UnrealisticYear} && a.matched == b.matched && a.raw == b.raw - 30.0)
      && (YearPresent(y) && EarliestYear <= y.value <= CurrentYear ==>
            a.flags == b.flags && multiset(a.matched) == multiset(b.matched) + multiset{YearLabel} && a.raw == b.raw + 10.0)
  {
    var undated := data.(graduationYear := None);
    CompareAllIgnoresYear(undated, db.certificates, sim, data.graduationYear);
    assert undated.(graduationYear := data.graduationYear) == data;
    var verified := InstitutionVerified(db, data.institution);
    CombineYear(verified, InstitutionStep(db, data.institution), Scan(data, db.certificates, sim),
      YearStep(data.graduationYear), FormatStep(db, data.institution, data.certificateNumber, verified));
  }

  /** A decisive record match is always valid: the floor of 85 outlasts the at most two flags. */
  lemma ExactMatchIsValid(db: Database, data: CertificateData, sim: Similarity, timestamp: string)
    requires Scan(data, db.certificates, sim).exact.Some?
    ensures var r := Verify(db, data, sim, timestamp);
      r.isValid && r.confidence >= 85.0 - 10.0 * |r.flags| as real
  {
  }

  /** Only the format stage can earn the format label or raise the format flag. */
  lemma CombineFormat(verified: bool, inst: Step, scan: ScanOutcome, year: Step, format: Step)
    requires forall l | l in scan.matched :: l in RecordLabels
    requires FormatMismatch !in inst.flags + year.flags
    requires FormatLabel !in inst.matched + year.matched
    ensures var a := Combine(verified, inst, scan, year, format);
      && (FormatLabel in a.matched <==> FormatLabel in format.matched)
      && (FormatMismatch in a.flags <==> FormatMismatch in format.flags)
  {
    var a := Combine(verified, inst, scan, year, format);
    assert a.flags == (inst.flags + year.flags) + format.flags;
    assert a.matched == (inst.matched + scan.matched + year.matched) + format.matched;
  }

  /**
   * The format check runs only for a present certificate number of a verified
   * institution, with the format of the first table name the lower-cased
   * institution contains; a fitting number earns the label, any other the flag.
   */
  lemma FormatCheckRules(db: Database, data: CertificateData, sim: Similarity, timestamp: string)
    ensures var r := Verify(db, data, sim, timestamp);
      var f := FormatToCheck(db, data.institution, data.certificateNumber, r.institutionVerified);
      && (f.Some? ==> Present(data.certificateNumber) && r.institutionVerified)
      && (FormatLabel in r.matchedFields <==> f.Some? && MatchesPrefix(f.value, data.certificateNumber.value))
      && (FormatMismatch in r.flags <==> f.Some? && !MatchesPrefix(f.value, data.certificateNumber.value))
  {
    VerifyReports(db, data, sim, timestamp);
    var verified := InstitutionVerified(db, data.institution);
    ScanLabels(data, db.certificates, sim);
    CombineFormat(verified, InstitutionStep(db, data.institution), Scan(data, db.certificates, sim),
      YearStep(data.graduationYear), FormatStep(db, data.institution, data.certificateNumber, verified));
  }

  /**
   * What the format check adds, against the same stages with no format check:
   * a fitting number the "Certificate Format" label and 15 points, any other
   * number the format flag and 15 points off; no check changes nothing.
   */
  lemma FormatCheckPoints(db: Database, data: CertificateData, sim: Similarity)
    ensures var verified := InstitutionVerified(db, data.institution);
      var f := FormatToCheck(db, data.institution, data.certificateNumber, verified);
      var a := Assess(db, data, sim);
      var b := Combine(verified, InstitutionStep(db, data.institution), Scan(data, db.certificates, sim),
        YearStep(data.graduationYear), NoStep);
      && a.verified == b.verified && a.discrepancies == b.discrepancies && a.exact == b.exact
      && (f.None? ==> a == b)
      && (f.Some? && MatchesPrefix(f.value, data.certificateNumber.value) ==>
            a.flags == b.flags && a.matched == b.matched + [FormatLabel] && a.raw == b.raw + 15.0)
      && (f.Some? && !MatchesPrefix(f.value, data.certificateNumber.value) ==>
            a.flags == b.flags + [FormatMismatch] && a.matched == b.matched && a.raw == b.raw - 15.0)
  {
    var verified := InstitutionVerified(db, data.institution);
    var inst, scan, year := InstitutionStep(db, data.institution), Scan(data, db.certificates, sim), YearStep(data.graduationYear);
    var b := Combine(verified, inst, scan, year, NoStep);
    assert b.flags == inst.flags + year.flags;
    assert b.matched == inst.matched + scan.matched + year.matched;
  }

  /** `re.match` anchors only at the start: characters appended to a fitting number still fit. */
  lemma FormatIgnoresTrailingCharacters(db: Database, data: CertificateData, sim: Similarity, timestamp: string, extra: string)
    requires var f := FormatToCheck(db, data.institution, data.certificateNumber, InstitutionVerified(db, data.institution));
      f.Some? && MatchesPrefix(f.value, data.certificateNumber.value)
    ensures FormatLabel in Verify(db, data.(certificateNumber := Some(data.certificateNumber.value + extra)), sim, timestamp).matchedFields
  {
    MatchIgnoresSuffix(FormatToCheck(db, data.institution, data.certificateNumber, InstitutionVerified(db, data.institution)).value, data.certificateNumber.value, extra);
    FormatCheckRules(db, data.(certificateNumber := Some(data.certificateNumber.value + extra)), sim, timestamp);
  }
}
