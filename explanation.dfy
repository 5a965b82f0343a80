/** The explanation sentence (server/src/utils/verdictGenerator.js). */
module Explanation {
  import opened Common
  import opened Strings
  import opened Classification
  import opened Platform
  import opened Parsers

  const Opening: string := "We analyzed this code finding: "

  /** The amount clause's lead-in. The source file spells the rupee sign as the three characters
      a UTF-8 rupee sign decodes to in Windows-1252, and so does the model. */
  const AmountLead: string := "amounting to \U{00E2}\U{201A}\U{00B9}"

  const SafeSentence: string :=
    "No known security threats were detected." + " The format is valid and the destination appears clean."

  const CautionLead: string := "Caution is advised." + " We detected some irregularities (Risk Score: "
  const CautionRest: string := "/100)." + " Verify the source before proceeding."
  const HighRiskLead: string :=
    "HIGH RISK WARNING." + " This content matches known scam patterns" + " or blacklisted sources (Risk Score: "
  const HighRiskRest: string := "/100). DO NOT PROCEED."

  /** The caution sentence for a SUSPICIOUS verdict. */
  function CautionSentence(riskScore: int): string {
    CautionLead + IntToString(riskScore) + CautionRest
  }

  /** The warning sentence for a DANGER or SCAM verdict. */
  function HighRiskSentence(riskScore: int): string {
    HighRiskLead + IntToString(riskScore) + HighRiskRest
  }

  /** The subject clauses that `parts` collects for the parsed data. */
  function Clauses(data: PayloadData, rt: Runtime): seq<string> {
    match data
    case UpiData(_, payeeName, amount, _, _) =>
      ["a payment request for " + OrElse(payeeName, "an unknown payee")]
        + (if amount.Some? && amount.value.Truthy() then [AmountLead + rt.numberText(amount.value)] else [])
    case UrlData(_, domain, _, _) => ["a link to " + domain]
    case ProductData(format, _) => ["a product barcode (" + format + ")"]
    case TextData(_) => ["raw text content"]
  }

  /** The sentence appended for the verdict. */
  function Tail(verdict: Verdict, riskScore: int): string {
    if verdict == Safe then SafeSentence
    else if verdict == Suspicious then CautionSentence(riskScore)
    else if verdict == Danger || verdict == Scam then HighRiskSentence(riskScore)
    else ""
  }

  /** What `generateExplanation` returns; `None` where it reads `data` of a result that has none
      (an invalid parse) or the `type` of a null parse, and so throws. */
  function ExplanationText(verdict: Verdict, riskScore: int, availableData: Option<Parsed>, rt: Runtime): Option<string> {
    match availableData
    case Some(Ok(data)) => Some(Opening + Join(Clauses(data, rt), ", ") + ". " + Tail(verdict, riskScore))
    case _ => None
  }

  /** `generateExplanation(verdict, riskScore, availableData)`: collects the clauses in `parts`,
      then appends them and the verdict's sentence to `explanation`. */
  method GenerateExplanation(verdict: Verdict, riskScore: int, availableData: Option<Parsed>, rt: Runtime)
    returns (r: Option<string>)
    ensures r == ExplanationText(verdict, riskScore, availableData, rt)
  {
    if availableData.None? || availableData.value.Invalid? {
      return None;
    }
    var data := availableData.value.data;
    var explanation := Opening;
    var parts: seq<string> := [];
    if data.UpiData? {
      parts := parts + ["a payment request for " + OrElse(data.payeeName, "an unknown payee")];
      if data.amount.Some? && data.amount.value.Truthy() {
        parts := parts + [AmountLead + rt.numberText(data.amount.value)];
      }
    } else if data.UrlData? {
      parts := parts + ["a link to " + data.domain];
    } else if data.ProductData? {
      parts := parts + ["a product barcode (" + data.format + ")"];
    } else {
      parts := parts + ["raw text content"];
    }
    assert parts == Clauses(data, rt);
    explanation := explanation + Join(parts, ", ") + ". ";
    if verdict == Safe {
      explanation := explanation + SafeSentence;
    } else if verdict == Suspicious {
      explanation := explanation + CautionSentence(riskScore);
    } else if verdict == Danger || verdict == Scam {
      explanation := explanation + HighRiskSentence(riskScore);
    }
    assert explanation == Opening + Join(Clauses(data, rt), ", ") + ". " + Tail(verdict, riskScore);
    r := Some(explanation);
  }

  // ---------------------------------------------------------------------------------------
  // Properties

  /** An explanation exists exactly for a valid parse, and it always starts with the opening
      words and holds the clauses, closed by ". ", before the verdict's sentence. */
  lemma ExplanationShape(verdict: Verdict, riskScore: int, availableData: Option<Parsed>, rt: Runtime)
    ensures ExplanationText(verdict, riskScore, availableData, rt).Some? <==> availableData.Some? && availableData.value.Ok?
    ensures ExplanationText(verdict, riskScore, availableData, rt).Some? ==>
      var text := ExplanationText(verdict, riskScore, availableData, rt).value;
      Opening <= text && Opening + Join(Clauses(availableData.value.data, rt), ", ") + ". " <= text
  {
  }

  /** The subject: a UPI request names the payee or "an unknown payee" and has the amount clause
      iff the amount is truthy; every other kind has one fixed clause. */
  lemma SubjectRules(data: PayloadData, rt: Runtime)
    ensures data.UpiData? ==>
      var c := Clauses(data, rt);
      (|c| == 1 || |c| == 2) && (|c| == 2 <==> data.amount.Some? && data.amount.value.Truthy())
      && (data.payeeName.None? ==> c[0] == "a payment request for an unknown payee")
      && (Truthy(data.payeeName) ==> c[0] == "a payment request for " + data.payeeName.value)
    ensures data.UrlData? ==> Join(Clauses(data, rt), ", ") == "a link to " + data.domain
    ensures data.ProductData? ==> Join(Clauses(data, rt), ", ") == "a product barcode (" + data.format + ")"
    ensures data.TextData? ==> Join(Clauses(data, rt), ", ") == "raw text content"
  {
  }

  /** DANGER and SCAM give the same text, and WARN or UNKNOWN add nothing after the subject. */
  lemma VerdictTails(riskScore: int, availableData: Option<Parsed>, rt: Runtime)
    ensures ExplanationText(Danger, riskScore, availableData, rt) == ExplanationText(Scam, riskScore, availableData, rt)
    ensures availableData.Some? && availableData.value.Ok? ==>
      ExplanationText(Warn, riskScore, availableData, rt).value
      == ExplanationText(Unknown, riskScore, availableData, rt).value
      == Opening + Join(Clauses(availableData.value.data, rt), ", ") + ". "
  {
    assert Tail(Danger, riskScore) == Tail(Scam, riskScore);
    assert Tail(Warn, riskScore) == Tail(Unknown, riskScore) == "";
    if availableData.Some? && availableData.value.Ok? {
      var p := Opening + Join(Clauses(availableData.value.data, rt), ", ") + ". ";
      assert p + "" == p;
    }
  }

  /** On the same data, the text tells the SAFE, SUSPICIOUS, WARN and DANGER tiers apart. */
  lemma TiersDistinct(a: Verdict, b: Verdict, sa: int, sb: int, availableData: Option<Parsed>, rt: Runtime)
    requires a in {Safe, Suspicious, Warn, Danger} && b in {Safe, Suspicious, Warn, Danger}
    requires ExplanationText(a, sa, availableData, rt).Some?
    requires ExplanationText(a, sa, availableData, rt) == ExplanationText(b, sb, availableData, rt)
    ensures a == b
  {
    var p := Opening + Join(Clauses(availableData.value.data, rt), ", ") + ". ";
    CancelPrefix(p, Tail(a, sa), Tail(b, sb));
    TailStart(a, sa);
    TailStart(b, sb);
  }

  /** The first character of each verdict's sentence. */
  lemma TailStart(verdict: Verdict, riskScore: int)
    ensures verdict == Safe ==> Tail(verdict, riskScore) != [] && Tail(verdict, riskScore)[0] == 'N'
    ensures verdict == Suspicious ==> Tail(verdict, riskScore) != [] && Tail(verdict, riskScore)[0] == 'C'
    ensures verdict in {Danger, Scam} ==> Tail(verdict, riskScore) != [] && Tail(verdict, riskScore)[0] == 'H'
    ensures verdict in {Warn, Unknown} ==> Tail(verdict, riskScore) == []
  {
    assert CautionLead[0] == 'C' && HighRiskLead[0] == 'H' && SafeSentence[0] == 'N';
    assert (CautionLead + IntToString(riskScore) + CautionRest)[0] == 'C';
    assert (HighRiskLead + IntToString(riskScore) + HighRiskRest)[0] == 'H';
  }

  /** The verdicts that report the score print it so that it can be read back: different scores
      give different texts. SAFE and WARN ignore the score. */
  lemma ScoreInText(verdict: Verdict, a: int, b: int, availableData: Option<Parsed>, rt: Runtime)
    requires verdict in {Suspicious, Danger, Scam}
    requires ExplanationText(verdict, a, availableData, rt).Some?
    requires ExplanationText(verdict, a, availableData, rt) == ExplanationText(verdict, b, availableData, rt)
    ensures a == b
  {
    var p := Opening + Join(Clauses(availableData.value.data, rt), ", ") + ". ";
    CancelPrefix(p, Tail(verdict, a), Tail(verdict, b));
    if verdict == Suspicious {
      NumeralBetween(CautionLead, a, b, CautionRest);
    } else {
      NumeralBetween(HighRiskLead, a, b, HighRiskRest);
    }
  }

  /** SAFE, WARN and UNKNOWN texts do not depend on the score. */
  lemma ScoreIgnored(verdict: Verdict, a: int, b: int, availableData: Option<Parsed>, rt: Runtime)
    requires verdict in {Safe, Warn, Unknown}
    ensures ExplanationText(verdict, a, availableData, rt) == ExplanationText(verdict, b, availableData, rt)
  {
  }

  /** The explanation is a plain sentence whose first character is 'W'. No JSON text starts with
      that character, so reading it back as JSON fails. */
  lemma PlainSentence(verdict: Verdict, riskScore: int, availableData: Option<Parsed>, rt: Runtime)
    requires ExplanationText(verdict, riskScore, availableData, rt).Some?
    ensures ExplanationText(verdict, riskScore, availableData, rt).value[0] == 'W'
  {
  }
}
