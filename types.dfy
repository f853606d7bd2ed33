/**
 * The data shapes the service and the web client exchange: the JSON body of a
 * successful `/verify-certificate` reply (`PythonVerificationResult` in
 * services/api.ts), the client's own `VerificationResult` (types/index.ts) and
 * the certificate details the upload hands to the rest of the client.
 */
module Types {
  import opened Wrappers
  import Scoring

  /**
   * The `extracted_data` object: the backend's `CertificateData` fields, all
   * optional, carried unchanged (`graduation_year` is a number).
   */
  type ExtractedData = Scoring.CertificateData

  /** The JSON reply of `/verify-certificate`, field by field (`is_valid`, `confidence`, ...). */
  datatype PythonVerificationResult = PythonVerificationResult(
    isValid: bool,
    confidence: real,
    flags: seq<string>,
    matchedFields: seq<string>,
    discrepancies: seq<string>,
    institutionVerified: bool,
    extractedData: ExtractedData,
    timestamp: string)

  /** The client's `VerificationResult`; `extractedData` is optional there. */
  datatype VerificationResult = VerificationResult(
    isValid: bool,
    confidence: real,
    flags: seq<string>,
    matchedFields: seq<string>,
    discrepancies: seq<string>,
    institutionVerified: bool,
    timestamp: string,
    extractedData: Option<ExtractedData>)

  /**
   * The `Partial<Certificate>` the upload builds: the eight certificate fields
   * under their camel-case names, each possibly undefined. Its shape is that
   * of `ExtractedData`, field for field.
   */
  type CertificateDetails = Scoring.CertificateData

  const NoDetails: CertificateDetails := Scoring.CertificateData(None, None, None, None, None, None, None, None)

  /** The JSON reply of `/health`. */
  datatype HealthBody = HealthBody(status: string, message: string)

  /** The JSON reply of `/institutions`. */
  datatype InstitutionsBody = InstitutionsBody(institutions: seq<string>)

  /** A browser `File`: its name, its MIME type (`file.type`, possibly empty) and its bytes. */
  datatype File = File(name: string, contentType: string, content: seq<bv8>)
}
