/**
 * The result card (components/Verification/VerificationResults.tsx): the
 * three-tier status shown by colour and icon, the header, which panels
 * appear, and how missing details are displayed.
 */
module Results {
  import opened Wrappers
  import opened Types

  datatype Tier = Green | Yellow | Red

  /** `getStatusColor`. */
  function StatusColor(r: VerificationResult): (t: Tier)
    ensures t == Green <==> r.isValid && r.confidence > 80.0
    ensures t == Yellow <==> r.isValid && 60.0 < r.confidence <= 80.0
    ensures t == Red <==> !r.isValid || r.confidence <= 60.0
  {
    if r.isValid && r.confidence > 80.0 then Green
    else if r.isValid && r.confidence > 60.0 then Yellow
    else Red
  }

  datatype Icon = CheckCircle | AlertTriangle | XCircle

  /** `getStatusIcon`, written out on its own in the source. */
  function StatusIcon(r: VerificationResult): Icon {
    if r.isValid && r.confidence > 80.0 then CheckCircle
    else if r.isValid && r.confidence > 60.0 then AlertTriangle
    else XCircle
  }

  /** The tier an icon stands for. */
  function IconTier(i: Icon): Tier {
    match i
    case CheckCircle => Green
    case AlertTriangle => Yellow
    case XCircle => Red
  }

  /** The icon always shows the same tier as the colour. */
  lemma IconMatchesColor(r: VerificationResult)
    ensures IconTier(StatusIcon(r)) == StatusColor(r)
  {
  }

  /** An invalid result is red whatever its confidence; a valid one at exactly 60 is red too. */
  lemma RedCases(r: VerificationResult)
    ensures !r.isValid ==> StatusColor(r) == Red
    ensures r.confidence == 60.0 ==> StatusColor(r) == Red
  {
  }

  /** "AI Verification Complete" or "AI Verification Failed". */
  function Header(r: VerificationResult): (h: string)
    ensures h == "AI Verification Complete" <==> r.isValid
    ensures h == "AI Verification Failed" <==> !r.isValid
  {
    "AI Verification " + (if r.isValid then "Complete" else "Failed")
  }

  /** The panels below the details, each shown or not. */
  datatype Panels = Panels(issues: bool, flags: bool, discrepancies: bool)

  /** The issues panel appears when there is a flag or a discrepancy; each list when it has entries. */
  function PanelsFor(r: VerificationResult): (p: Panels)
    ensures p.issues <==> p.flags || p.discrepancies
    ensures p.flags <==> r.flags != []
    ensures p.discrepancies <==> r.discrepancies != []
  {
    var flags := |r.flags| > 0;
    var discrepancies := |r.discrepancies| > 0;
    Panels(flags || discrepancies, flags, discrepancies)
  }

  /** The panel's tone: red and yellow tiers keep their colour, the green tier shows blue. */
  datatype Tone = RedTone | YellowTone | BlueTone

  function PanelTone(t: Tier): (tone: Tone)
    ensures tone == RedTone <==> t == Red
    ensures tone == YellowTone <==> t == Yellow
    ensures tone == BlueTone <==> t == Green
  {
    match t
    case Red => RedTone
    case Yellow => YellowTone
    case Green => BlueTone
  }

  /** `value || 'N/A'`: a missing or empty value reads "N/A". */
  function Shown(value: Option<string>): (s: string)
    ensures s != ""
    ensures value.Some? && value.value != "" ==> s == value.value
    ensures value.None? || value.value == "" ==> s == "N/A"
  {
    if value.Some? && value.value != "" then value.value else "N/A"
  }

  /** The three details the card lists. */
  datatype DetailLines = DetailLines(studentName: string, institution: string, course: string)

  function DetailLinesOf(certificate: CertificateDetails): (d: DetailLines) {
    DetailLines(Shown(certificate.studentName), Shown(certificate.institution), Shown(certificate.course))
  }

  /** The details the upload hands on are all undefined, so every line reads "N/A". */
  lemma UploadedDetailsReadNA()
    ensures DetailLinesOf(NoDetails) == DetailLines("N/A", "N/A", "N/A")
  {
  }
}
