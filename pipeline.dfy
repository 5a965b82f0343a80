/** How the parts fit together in `analyzeScan` and on the client: facts that hold across the
    engine, the parser, the controller and the humanizer. */
module Pipeline {
  import opened Common
  import opened Strings
  import opened Classification
  import opened Platform
  import opened Engine
  import opened LegacyEngine
  import opened Parsers
  import opened Humanizer
  import opened ScanController

  /** The layered engine never says SCAM, so its verdict calls for an audit exactly when its
      clamped score reaches 80. A scan is audited when, in addition, its parse is valid: for a
      null or invalid parse `generateExplanation` throws before the audit (`Persist`). */
  lemma AuditIffHighScore(clean: string, clientInfo: ClientInfo, layers: Layers, user: Option<User>, rt: Runtime)
    ensures var analysis := Engine.Analysis(clean, clientInfo, layers, rt.md5Hex);
            ShouldAudit(analysis.verdict) <==> analysis.riskScore >= 80
    ensures var analysis := Engine.Analysis(clean, clientInfo, layers, rt.md5Hex);
            var parsed := PayloadResult(clean, rt);
            var w := Persist(clean, parsed, analysis, user, Some(clientInfo), rt);
            (w.Some? && w.value.audit.Some?) <==> (parsed.Some? && parsed.value.Ok? && analysis.riskScore >= 80)
  {
  }

  /** A string of digits holds no dot and does not start with "http" or "upi://". */
  lemma DigitsRouteToGeneral(payload: string)
    requires payload != [] && AllDigits(payload)
    ensures !StartsWith(payload, "upi://") && !UrlLike(payload)
  {
    assert IsDigit(payload[0]);
    assert '.' !in payload;
    NotContainsChar(payload, ".", '.');
  }

  /** The engine calls 12 to 14 digits a product, but the parser only 13: the stored and
      returned type of a 12- or 14-digit code is "TEXT", while for 13 digits it is the
      lower-case "product". */
  lemma ProductTypesDisagree(payload: string, rt: Platform.Runtime)
    requires IsProductCode(payload)
    ensures DetectType(payload) == Product
    ensures PayloadResult(payload, rt).Some?
    ensures |payload| == 13 ==> PayloadResult(payload, rt).value.Type() == "product"
    ensures |payload| != 13 ==> PayloadResult(payload, rt).value.Type() == "TEXT"
  {
    DetectTypeRules(payload);
    DigitsRouteToGeneral(payload);
  }

  /** The client is shown the parser's type, which is never "PRODUCT": a barcode gets the same
      description and action as plain text in every tier. */
  lemma BarcodeAdviceIsGeneric(kind: PayloadKind, tier: Tier)
    ensures kind.TypeName() != "PRODUCT"
    ensures Advice(tier, ProductKind.TypeName()) == Advice(tier, TextKind.TypeName())
  {
    AdviceByType(tier, ProductKind.TypeName(), TextKind.TypeName());
  }

  /** A keyword finding names a word of lower-case letters and spaces after a prefix without
      'H', 'B' or 'K', so none of the three phrases can occur in it. */
  lemma KeywordFindingUnchanged(w: string)
    requires forall k :: 0 <= k < |w| ==> 'a' <= w[k] <= 'z' || w[k] == ' '
    ensures Rewrite("Suspicious keyword: " + w) == "Suspicious keyword: " + w
  {
    var f := "Suspicious keyword: " + w;
    assert 'H' !in f && 'B' !in f && 'K' !in f;
    NotContainsChar(f, "High Entropy Domain", 'H');
    NotContainsChar(f, "Invalid Barcode Checksum", 'B');
    NotContainsChar(f, "Suspicious Keyword", 'K');
    RewriteKeeps(f);
  }

  /** The legacy engine's keyword findings read "Suspicious keyword" with a lower-case k, so the
      client's rewrite of "Suspicious Keyword" would never apply: they would be shown unchanged.
      This is a property of the two parts side by side. The scan controller imports the layered
      engine (server/src/controllers/scanController.js:2), and no modelled file passes legacy
      output to the humanizer. */
  lemma KeywordFindingsShownUnchanged(payload: string, k: nat)
    requires k < |TextCheck(payload).findings|
    ensures Rewrite(TextCheck(payload).findings[k]) == TextCheck(payload).findings[k]
  {
    var lower := ToLower(payload);
    var matched := Matched(lower, SuspiciousKeywords);
    TextScoreValues(payload);
    var w := matched[k];
    MatchedIff(lower, SuspiciousKeywords, w);
    KeywordsLowerCase(w);
    KeywordFindingUnchanged(w);
  }
}
