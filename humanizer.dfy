/** The client's plain-language rendering of a scan result (client/src/utils/verdictHumanizer.js).
    The client receives the server's JSON, so verdict and type are plain strings here. */
module Humanizer {
  import opened Common
  import opened Strings

  /** The fields of the scan result the humanizer reads. */
  datatype ScanView = ScanView(verdict: string, riskScore: int, detectedType: string, findings: Option<seq<string>>)

  /** What `humanizeVerdict` returns. */
  datatype Humanized = Humanized(summary: string, description: string, action: string, actionColor: string,
                                 icon: string, signals: seq<string>, riskScore: int)

  /** The three tiers of the conditional ladder. */
  datatype Tier = HighRisk | Caution | Clear

  /** DANGER and SCAM are high risk, WARN and SUSPICIOUS call for caution, anything else is clear. */
  function TierOf(verdict: string): Tier {
    if verdict == "DANGER" || verdict == "SCAM" then HighRisk
    else if verdict == "WARN" || verdict == "SUSPICIOUS" then Caution
    else Clear
  }

  function Summary(tier: Tier): string {
    match tier
    case HighRisk => "High Risk Detected"
    case Caution => "Proceed with Caution"
    case Clear => "No Threats Found"
  }

  function ActionColor(tier: Tier): string {
    match tier
    case HighRisk => "bg-red-600 hover:bg-red-700"
    case Caution => "bg-yellow-600 hover:bg-yellow-700"
    case Clear => "bg-green-600 hover:bg-green-700"
  }

  function Icon(tier: Tier): string {
    match tier
    case HighRisk => "\U{1F6AB}"
    case Caution => "\U{26A0}\U{FE0F}"
    case Clear => "\U{2705}"
  }

  /** The description and the action for the tier and the detected type. */
  function Advice(tier: Tier, detectedType: string): (string, string) {
    match tier
    case HighRisk =>
      if detectedType == "UPI" then
        ("This payment request matches known scam patterns or uses high-risk techniques.", "Do NOT Pay. Exit immediately.")
      else if detectedType == "URL" then
        ("This website is flagged as dangerous. It may try to steal your information or install malware.",
         "Do NOT Open Link. Close this immediately.")
      else if detectedType == "PRODUCT" then
        ("This product barcode appears to be counterfeit or invalid.", "Do NOT purchase. Verify vendor.")
      else ("This content is flagged as highly unsafe.", "Avoid interaction.")
    case Caution =>
      if detectedType == "UPI" then
        ("This payment looks unusual. Check the amount and payee name carefully.", "Verify details before paying.")
      else if detectedType == "URL" then
        ("This link has some suspicious traits or is unverified.", "Only open if you trust the source.")
      else if detectedType == "PRODUCT" then
        ("We could not verify this product completely.", "Check physical packaging details.")
      else ("This content has some irregularities.", "Be careful.")
    case Clear => ("We found no known scam indicators in this scan.", "You can proceed.")
  }

  /** The jargon rewrite of one finding: the first occurrence of each phrase, in this order. */
  function Rewrite(f: string): string {
    var a := ReplaceFirst(f, "High Entropy Domain", "Random-looking Domain Name");
    var b := ReplaceFirst(a, "Invalid Barcode Checksum", "Fake Barcode Number");
    ReplaceFirst(b, "Suspicious Keyword", "Misleading Words")
  }

  /** The first three findings, rewritten; none when the result has no findings. */
  function Signals(findings: Option<seq<string>>): seq<string> {
    match findings
    case None => []
    case Some(fs) => seq(Min(3, |fs|), k requires 0 <= k < Min(3, |fs|) => Rewrite(fs[k]))
  }

  /** `humanizeVerdict(result)`; a missing result gives null. */
  function Humanize(result: Option<ScanView>): (h: Option<Humanized>)
    ensures h.None? <==> result.None?
    ensures h.Some? ==> h.value.riskScore == result.value.riskScore
  {
    match result
    case None => None
    case Some(r) =>
      var tier := TierOf(r.verdict);
      var advice := Advice(tier, r.detectedType);
      Some(Humanized(Summary(tier), advice.0, advice.1, ActionColor(tier), Icon(tier), Signals(r.findings), r.riskScore))
  }

  // ---------------------------------------------------------------------------------------
  // Properties

  /** The summary, colour and icon depend on the verdict's tier alone, and every verdict outside
      the six known ones lands in the clear tier. */
  lemma HeadlineByTier(a: ScanView, b: ScanView)
    requires TierOf(a.verdict) == TierOf(b.verdict)
    ensures var ha, hb := Humanize(Some(a)).value, Humanize(Some(b)).value;
      ha.summary == hb.summary && ha.actionColor == hb.actionColor && ha.icon == hb.icon
  {
  }

  /** Which verdicts give which summary. */
  lemma SummaryRules(r: ScanView)
    ensures Humanize(Some(r)).value.summary == "High Risk Detected" <==> r.verdict in {"DANGER", "SCAM"}
    ensures Humanize(Some(r)).value.summary == "Proceed with Caution" <==> r.verdict in {"WARN", "SUSPICIOUS"}
    ensures Humanize(Some(r)).value.summary == "No Threats Found"
            <==> r.verdict !in {"DANGER", "SCAM", "WARN", "SUSPICIOUS"}
  {
  }

  /** The clear tier ignores the detected type, and the other tiers treat every type outside
      UPI, URL and PRODUCT alike. */
  lemma AdviceByType(tier: Tier, t1: string, t2: string)
    ensures tier == Clear ==> Advice(tier, t1) == Advice(tier, t2)
    ensures tier != Clear && t1 !in {"UPI", "URL", "PRODUCT"} && t2 !in {"UPI", "URL", "PRODUCT"}
            ==> Advice(tier, t1) == Advice(tier, t2)
  {
  }

  /** At most three signals, each the same-index finding rewritten. */
  lemma SignalRules(r: ScanView)
    ensures var s := Humanize(Some(r)).value.signals;
      (r.findings.None? ==> s == []) &&
      (r.findings.Some? ==> (|s| == Min(3, |r.findings.value|) &&
                             forall k :: 0 <= k < |s| ==> s[k] == Rewrite(r.findings.value[k])))
  {
  }

  /** A finding that holds none of the three phrases is shown unchanged. */
  lemma RewriteKeeps(f: string)
    requires !Contains(f, "High Entropy Domain") && !Contains(f, "Invalid Barcode Checksum")
    requires !Contains(f, "Suspicious Keyword")
    ensures Rewrite(f) == f
  {
  }

  /** A finding with one phrase and neither of the others has that phrase's first occurrence
      replaced and nothing else. */
  lemma RewriteOne(f: string)
    requires Contains(f, "High Entropy Domain")
    requires 'I' !in f && 'K' !in f
    ensures var i := IndexOf(f, "High Entropy Domain").value;
      Rewrite(f) == f[..i] + "Random-looking Domain Name" + f[i + |"High Entropy Domain"|..]
  {
    var i := IndexOf(f, "High Entropy Domain").value;
    var a := f[..i] + "Random-looking Domain Name" + f[i + |"High Entropy Domain"|..];
    NotContainsFor(a, "Invalid Barcode Checksum", 'I', f, i);
    NotContainsFor(a, "Suspicious Keyword", 'K', f, i);
  }

  /** Replacing "High Entropy Domain" in a text without `x` adds no `x`, so a phrase holding
      `x` does not occur in the result. */
  lemma NotContainsFor(a: string, p: string, x: char, f: string, i: nat)
    requires x in p && x !in f && x != 'R' && x !in "andom-looking Domain Name"
    requires i + |"High Entropy Domain"| <= |f|
    requires a == f[..i] + "Random-looking Domain Name" + f[i + |"High Entropy Domain"|..]
    ensures !Contains(a, p)
  {
    assert x !in f[..i] && x !in f[i + |"High Entropy Domain"|..];
    if Contains(a, p) {
      ContainsChars(a, p, x);
    }
  }
}
