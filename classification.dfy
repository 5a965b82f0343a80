/** The verdicts and payload kinds the system reports. */
module Classification {
  import opened Common

  /** A verdict, as a stored scan may carry it (server/src/models/ScanResult.js:19). */
  datatype Verdict = Safe | Suspicious | Warn | Danger | Scam | Unknown
  {
    /** The verdict's name on the wire. */
    function Name(): string {
      match this
      case Safe => "SAFE"
      case Suspicious => "SUSPICIOUS"
      case Warn => "WARN"
      case Danger => "DANGER"
      case Scam => "SCAM"
      case Unknown => "UNKNOWN"
    }

    /** Severity in the order SAFE < SUSPICIOUS < WARN < DANGER. SCAM ranks with DANGER and
        UNKNOWN with SAFE, which is how the explanation and the client group them. */
    function Severity(): nat {
      match this
      case Safe => 0
      case Unknown => 0
      case Suspicious => 1
      case Warn => 2
      case Danger => 3
      case Scam => 3
    }
  }

  /** The payload kind an engine reports in `detectedType`. */
  datatype DetectedType = Upi | Url | Product | Text | Undetected
  {
    function Name(): string {
      match this
      case Upi => "UPI"
      case Url => "URL"
      case Product => "PRODUCT"
      case Text => "TEXT"
      case Undetected => "UNKNOWN"
    }
  }

  /** What the client sends along with a payload. */
  datatype ClientInfo = ClientInfo(ip: Option<string>, userAgent: Option<string>)
}
