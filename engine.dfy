/** The layered scam-deduction orchestrator (server/src/engine/ScamDeductionEngineV4.js).
    The seven layer modules are not part of this model: each is a function of the inputs the
    orchestrator hands it, fixed for the duration of one call. */
module Engine {
  import opened Common
  import opened Strings
  import opened Classification

  /** The parts of a layer's `details` object the orchestrator reads: the threat layer's
      `finalUrl` and the reputation layer's `score`. */
  datatype Details = Details(finalUrl: Option<string>, score: ScoreField)

  /** The `score` property as JavaScript sees it: missing (`undefined`), `null`, or a number. */
  datatype ScoreField = Undefined | Null | Number(value: int)

  /** `score < 30` under JavaScript's relational comparison: `undefined` becomes NaN, which
      compares false, and `null` becomes 0, which compares true. */
  predicate BelowThirty(score: ScoreField)
  {
    match score
    case Undefined => false
    case Null => true
    case Number(v) => v < 30
  }

  /** What every layer returns. */
  datatype LayerResult = LayerResult(riskScore: int, findings: seq<string>, details: Option<Details>)

  /** The keys of the result's `layers` object. */
  datatype LayerName =
    | ForensicsLayer | ConsistencyLayer | ThreatLayer | IntelligenceLayer
    | BehaviorLayer | ProductLayer | ReputationLayer

  /** The seven layers, as the functions they compute for one call. */
  datatype Layers = Layers(
    forensics: string -> LayerResult,
    consistency: string -> LayerResult,
    threat: string -> LayerResult,
    intelligence: (string, Option<string>) -> LayerResult,
    behavior: string -> LayerResult,
    product: string -> LayerResult,
    reputation: string -> LayerResult)

  datatype AnalysisResult = AnalysisResult(
    verdict: Verdict,
    riskScore: int,
    detectedType: DetectedType,
    findings: seq<string>,
    layers: map<LayerName, LayerResult>,
    fingerprint: string,
    clientInfo: ClientInfo)

  /** `/^\d{12,14}$/`. */
  predicate IsProductCode(s: string) {
    12 <= |s| <= 14 && AllDigits(s)
  }

  /** The payload kind, decided by prefix and shape alone. */
  function DetectType(payload: string): DetectedType {
    if StartsWith(payload, "upi://") then Upi
    else if StartsWith(payload, "http") then Url
    else if IsProductCode(payload) then Product
    else Text
  }

  /** The threshold ladder. */
  function Ladder(score: int): (v: Verdict)
    ensures v in {Safe, Suspicious, Warn, Danger}
  {
    if score >= 80 then Danger
    else if score >= 40 then Warn
    else if score > 0 then Suspicious
    else Safe
  }

  /** `threat.details ? threat.details.finalUrl : null`. */
  function FinalUrl(threat: LayerResult): Option<string> {
    if threat.details.Some? then threat.details.value.finalUrl else None
  }

  /** `finalUrl || payload`. */
  function ReputationTarget(payload: string, finalUrl: Option<string>): string {
    OrElse(finalUrl, payload)
  }

  /** The layers that run for a payload, in execution order, with what each returns. */
  function Executed(payload: string, layers: Layers, md5Hex: string -> string): seq<(LayerName, LayerResult)> {
    var threat := layers.threat(payload);
    var finalUrl := FinalUrl(threat);
    var kind := DetectType(payload);
    [(ForensicsLayer, layers.forensics(payload)),
     (ConsistencyLayer, layers.consistency(payload)),
     (ThreatLayer, threat),
     (IntelligenceLayer, layers.intelligence(payload, finalUrl)),
     (BehaviorLayer, layers.behavior(md5Hex(payload)))]
    + (if kind == Product then [(ProductLayer, layers.product(payload))] else [])
    + (if kind == Url then [(ReputationLayer, layers.reputation(ReputationTarget(payload, finalUrl)))] else [])
  }

  /** The sum of the layers' scores, accumulated left to right. */
  function TotalScore(run: seq<(LayerName, LayerResult)>): int {
    if run == [] then 0 else TotalScore(run[..|run| - 1]) + run[|run| - 1].1.riskScore
  }

  /** The layers' findings, concatenated in order. */
  function AllFindings(run: seq<(LayerName, LayerResult)>): seq<string> {
    if run == [] then [] else AllFindings(run[..|run| - 1]) + run[|run| - 1].1.findings
  }

  /** The `layers` object, filled in order. */
  function LayerMap(run: seq<(LayerName, LayerResult)>): map<LayerName, LayerResult> {
    if run == [] then map[] else LayerMap(run[..|run| - 1])[run[|run| - 1].0 := run[|run| - 1].1]
  }

  /** What `analyze` returns for a payload. */
  function Analysis(payload: string, clientInfo: ClientInfo, layers: Layers, md5Hex: string -> string): AnalysisResult {
    var run := Executed(payload, layers, md5Hex);
    var score := Min(TotalScore(run), 100);
    AnalysisResult(Ladder(score), score, DetectType(payload), AllFindings(run), LayerMap(run), md5Hex(payload), clientInfo)
  }

  /** One more layer folds into the accumulated score, findings and layers object. */
  lemma Snoc(run: seq<(LayerName, LayerResult)>, e: (LayerName, LayerResult))
    ensures TotalScore(run + [e]) == TotalScore(run) + e.1.riskScore
    ensures AllFindings(run + [e]) == AllFindings(run) + e.1.findings
    ensures LayerMap(run + [e]) == LayerMap(run)[e.0 := e.1]
  {
    assert (run + [e])[..|run|] == run;
  }

  /** The verdict the product and reputation overrides leave before the final ladder runs:
      the reputation override wins over the product override, which wins over SAFE. */
  function OverrideVerdict(payload: string, layers: Layers, md5Hex: string -> string): Verdict {
    var run := Executed(payload, layers, md5Hex);
    var kind := DetectType(payload);
    if kind == Url && ReputationForcesDanger(run[5].1) then Danger
    else if kind == Product && run[5].1.riskScore >= 60 then Danger
    else if kind == Product && run[5].1.riskScore >= 20 then Warn
    else Safe
  }

  /** `reputation.details && reputation.details.score < 30`. */
  predicate ReputationForcesDanger(reputation: LayerResult) {
    reputation.details.Some? && BelowThirty(reputation.details.value.score)
  }

  /** Steps 0 to 7 of `analyze`: the fingerprint, the detected type and the layers, with the
      result's fields updated step by step as the source does. */
  method RunLayers(payload: string, layers: Layers, md5Hex: string -> string)
    returns (fingerprint: string, detectedType: DetectedType, riskScore: int, findings: seq<string>,
             record: map<LayerName, LayerResult>, verdict: Verdict)
    ensures fingerprint == md5Hex(payload) && detectedType == DetectType(payload)
    ensures var run := Executed(payload, layers, md5Hex);
      riskScore == TotalScore(run) && findings == AllFindings(run) && record == LayerMap(run)
    ensures verdict == OverrideVerdict(payload, layers, md5Hex)
  {
    fingerprint := md5Hex(payload);
    verdict := Safe;
    riskScore := 0;
    detectedType := Undetected;
    findings := [];
    record := map[];
    ghost var run: seq<(LayerName, LayerResult)> := [];

    // 1. Forensics
    var forensics := layers.forensics(payload);
    Snoc(run, (ForensicsLayer, forensics));
    run := run + [(ForensicsLayer, forensics)];
    record := record[ForensicsLayer := forensics];
    riskScore := riskScore + forensics.riskScore;
    findings := findings + forensics.findings;

    if StartsWith(payload, "upi://") {
      detectedType := Upi;
    } else if StartsWith(payload, "http") {
      detectedType := Url;
    } else if IsProductCode(payload) {
      detectedType := Product;
    } else {
      detectedType := Text;
    }

    // 2. Consistency
    var consistency := layers.consistency(payload);
    Snoc(run, (ConsistencyLayer, consistency));
    run := run + [(ConsistencyLayer, consistency)];
    record := record[ConsistencyLayer := consistency];
    riskScore := riskScore + consistency.riskScore;
    findings := findings + consistency.findings;

    // 3. Threat
    var threat := layers.threat(payload);
    Snoc(run, (ThreatLayer, threat));
    run := run + [(ThreatLayer, threat)];
    record := record[ThreatLayer := threat];
    riskScore := riskScore + threat.riskScore;
    findings := findings + threat.findings;

    var finalUrl := if threat.details.Some? then threat.details.value.finalUrl else None;

    // 4. Intelligence
    var intelligence := layers.intelligence(payload, finalUrl);
    Snoc(run, (IntelligenceLayer, intelligence));
    run := run + [(IntelligenceLayer, intelligence)];
    record := record[IntelligenceLayer := intelligence];
    riskScore := riskScore + intelligence.riskScore;
    findings := findings + intelligence.findings;

    // 5. Behavior
    var behavior := layers.behavior(fingerprint);
    Snoc(run, (BehaviorLayer, behavior));
    run := run + [(BehaviorLayer, behavior)];
    record := record[BehaviorLayer := behavior];
    riskScore := riskScore + behavior.riskScore;
    findings := findings + behavior.findings;

    // 6. Product
    if detectedType == Product {
      var productAnalysis := layers.product(payload);
      Snoc(run, (ProductLayer, productAnalysis));
      run := run + [(ProductLayer, productAnalysis)];
      record := record[ProductLayer := productAnalysis];
      riskScore := riskScore + productAnalysis.riskScore;
      findings := findings + productAnalysis.findings;

      if productAnalysis.riskScore >= 60 {
        verdict := Danger;
      } else if productAnalysis.riskScore >= 20 {
        verdict := Warn;
      }
    }

    // 7. Reputation
    if detectedType == Url {
      var targetUrl := if finalUrl.Some? && finalUrl.value != "" then finalUrl.value else payload;
      var reputation := layers.reputation(targetUrl);
      Snoc(run, (ReputationLayer, reputation));
      run := run + [(ReputationLayer, reputation)];
      record := record[ReputationLayer := reputation];
      riskScore := riskScore + reputation.riskScore;
      findings := findings + reputation.findings;

      if reputation.details.Some? && BelowThirty(reputation.details.value.score) {
        verdict := Danger;
      }
    }

    assert run == Executed(payload, layers, md5Hex);
  }

  /** `ScamDeductionEngine.analyze`: the layers, then the clamp and the verdict ladder, which
      overwrites whatever verdict the overrides set. */
  method Analyze(payload: string, clientInfo: ClientInfo, layers: Layers, md5Hex: string -> string)
    returns (result: AnalysisResult)
    ensures result == Analysis(payload, clientInfo, layers, md5Hex)
  {
    var fingerprint, detectedType, riskScore, findings, record, verdict := RunLayers(payload, layers, md5Hex);

    // Final scoring
    if riskScore > 100 {
      riskScore := 100;
    }
    if riskScore >= 80 {
      verdict := Danger;
    } else if riskScore >= 40 {
      verdict := Warn;
    } else if riskScore > 0 {
      verdict := Suspicious;
    } else {
      verdict := Safe;
    }
    result := AnalysisResult(verdict, riskScore, detectedType, findings, record, fingerprint, clientInfo);
  }

  // ---------------------------------------------------------------------------------------
  // Properties of the analysis

  /** The type rules apply in order, on the payload alone. */
  lemma DetectTypeRules(payload: string)
    ensures DetectType(payload) == Upi <==> StartsWith(payload, "upi://")
    ensures DetectType(payload) == Url <==> !StartsWith(payload, "upi://") && StartsWith(payload, "http")
    ensures DetectType(payload) == Product <==> IsProductCode(payload)
    ensures DetectType(payload) == Text <==>
      !StartsWith(payload, "upi://") && !StartsWith(payload, "http") && !IsProductCode(payload)
    ensures DetectType(payload) != Undetected
  {
    if IsProductCode(payload) {
      assert IsDigit(payload[0]);
      assert !StartsWith(payload, "upi://") by { assert "upi://"[0] == 'u'; }
      assert !StartsWith(payload, "http") by { assert "http"[0] == 'h'; }
    }
  }

  /** The final score is the sum of the scores of the layers that ran, capped at 100. */
  lemma ScoreIsClampedSum(payload: string, clientInfo: ClientInfo, layers: Layers, md5Hex: string -> string)
    ensures var threat := layers.threat(payload);
      var finalUrl := FinalUrl(threat);
      var kind := DetectType(payload);
      var sum := layers.forensics(payload).riskScore + layers.consistency(payload).riskScore
        + threat.riskScore + layers.intelligence(payload, finalUrl).riskScore
        + layers.behavior(md5Hex(payload)).riskScore
        + (if kind == Product then layers.product(payload).riskScore else 0)
        + (if kind == Url then layers.reputation(ReputationTarget(payload, finalUrl)).riskScore else 0);
      Analysis(payload, clientInfo, layers, md5Hex).riskScore == Min(sum, 100)
  {
    ExecutedFold(payload, layers, md5Hex);
  }

  /** The findings are the layers' findings concatenated in execution order. */
  lemma FindingsInExecutionOrder(payload: string, clientInfo: ClientInfo, layers: Layers, md5Hex: string -> string)
    ensures var threat := layers.threat(payload);
      var finalUrl := FinalUrl(threat);
      var kind := DetectType(payload);
      Analysis(payload, clientInfo, layers, md5Hex).findings ==
        layers.forensics(payload).findings + layers.consistency(payload).findings
        + threat.findings + layers.intelligence(payload, finalUrl).findings
        + layers.behavior(md5Hex(payload)).findings
        + (if kind == Product then layers.product(payload).findings else [])
        + (if kind == Url then layers.reputation(ReputationTarget(payload, finalUrl)).findings else [])
  {
    ExecutedFold(payload, layers, md5Hex);
  }

  /** Folding a concatenation is folding the two halves. */
  lemma {:induction false} FoldAppend(a: seq<(LayerName, LayerResult)>, b: seq<(LayerName, LayerResult)>)
    ensures TotalScore(a + b) == TotalScore(a) + TotalScore(b)
    ensures AllFindings(a + b) == AllFindings(a) + AllFindings(b)
    decreases |b|
  {
    if b != [] {
      var b', x := b[..|b| - 1], b[|b| - 1];
      assert b == b' + [x];
      assert a + b == (a + b') + [x];
      FoldAppend(a, b');
      Snoc(a + b', x);
      Snoc(b', x);
      assert AllFindings(a) + AllFindings(b') + x.1.findings == AllFindings(a) + (AllFindings(b') + x.1.findings);
    } else {
      assert a + b == a;
    }
  }

  /** Folding five layers, written out. */
  lemma FoldFive(run: seq<(LayerName, LayerResult)>)
    requires |run| == 5
    ensures TotalScore(run) == run[0].1.riskScore + run[1].1.riskScore + run[2].1.riskScore
      + run[3].1.riskScore + run[4].1.riskScore
    ensures AllFindings(run) == run[0].1.findings + run[1].1.findings + run[2].1.findings
      + run[3].1.findings + run[4].1.findings
  {
    assert run[..4][..3] == run[..3] && run[..3][..2] == run[..2];
    assert run[..2][..1] == run[..1] && run[..1][..0] == [];
    assert TotalScore(run[..1]) == run[0].1.riskScore;
    assert TotalScore(run[..2]) == TotalScore(run[..1]) + run[1].1.riskScore;
    assert TotalScore(run[..3]) == TotalScore(run[..2]) + run[2].1.riskScore;
    assert TotalScore(run[..4]) == TotalScore(run[..3]) + run[3].1.riskScore;
    assert AllFindings(run[..1]) == run[0].1.findings;
    assert AllFindings(run[..2]) == AllFindings(run[..1]) + run[1].1.findings;
    assert AllFindings(run[..3]) == AllFindings(run[..2]) + run[2].1.findings;
    assert AllFindings(run[..4]) == AllFindings(run[..3]) + run[3].1.findings;
  }

  /** The score and findings of the executed layers, written out. */
  lemma ExecutedFold(payload: string, layers: Layers, md5Hex: string -> string)
    ensures var threat := layers.threat(payload);
      var finalUrl := FinalUrl(threat);
      var kind := DetectType(payload);
      var run := Executed(payload, layers, md5Hex);
      var f, c, i, b := layers.forensics(payload), layers.consistency(payload),
        layers.intelligence(payload, finalUrl), layers.behavior(md5Hex(payload));
      var p, r := layers.product(payload), layers.reputation(ReputationTarget(payload, finalUrl));
      && TotalScore(run) == f.riskScore + c.riskScore + threat.riskScore + i.riskScore + b.riskScore
        + (if kind == Product then p.riskScore else 0) + (if kind == Url then r.riskScore else 0)
      && AllFindings(run) == f.findings + c.findings + threat.findings + i.findings + b.findings
        + (if kind == Product then p.findings else []) + (if kind == Url then r.findings else [])
  {
    var run := Executed(payload, layers, md5Hex);
    var base := run[..5];
    var gated := run[5..];
    assert run == base + gated;
    FoldAppend(base, gated);
    FoldFive(base);
    if gated != [] {
      Snoc([], gated[0]);
      assert gated == [] + [gated[0]];
    }
  }

  /** The `layers` object of a run made of the five unconditional layers and at most one
      gated layer. */
  lemma LayerMapOfRun(run: seq<(LayerName, LayerResult)>)
    requires |run| == 5 || |run| == 6
    requires run[0].0 == ForensicsLayer && run[1].0 == ConsistencyLayer && run[2].0 == ThreatLayer
    requires run[3].0 == IntelligenceLayer && run[4].0 == BehaviorLayer
    requires |run| == 6 ==> run[5].0 == ProductLayer || run[5].0 == ReputationLayer
    ensures LayerMap(run).Keys == {ForensicsLayer, ConsistencyLayer, ThreatLayer, IntelligenceLayer, BehaviorLayer}
      + (if |run| == 6 then {run[5].0} else {})
    ensures forall k :: 0 <= k < |run| ==> LayerMap(run)[run[k].0] == run[k].1
  {
    assert run[..5][..4] == run[..4] && run[..4][..3] == run[..3] && run[..3][..2] == run[..2];
    assert run[..2][..1] == run[..1] && run[..1][..0] == [];
    assert LayerMap(run[..1]) == map[ForensicsLayer := run[0].1];
    assert LayerMap(run[..2]) == LayerMap(run[..1])[ConsistencyLayer := run[1].1];
    assert LayerMap(run[..3]) == LayerMap(run[..2])[ThreatLayer := run[2].1];
    assert LayerMap(run[..4]) == LayerMap(run[..3])[IntelligenceLayer := run[3].1];
    assert LayerMap(run[..5]) == LayerMap(run[..4])[BehaviorLayer := run[4].1];
    if |run| == 6 {
      assert LayerMap(run) == LayerMap(run[..5])[run[5].0 := run[5].1];
    } else {
      assert run[..5] == run;
    }
  }

  /** The `layers` object holds the five unconditional layers always, `product` exactly for
      PRODUCT payloads and `reputation` exactly for URL payloads, so never both. */
  lemma LayerKeys(payload: string, clientInfo: ClientInfo, layers: Layers, md5Hex: string -> string)
    ensures var r := Analysis(payload, clientInfo, layers, md5Hex);
      var kind := DetectType(payload);
      && r.layers.Keys == {ForensicsLayer, ConsistencyLayer, ThreatLayer, IntelligenceLayer, BehaviorLayer}
           + (if kind == Product then {ProductLayer} else {})
           + (if kind == Url then {ReputationLayer} else {})
      && !(ProductLayer in r.layers && ReputationLayer in r.layers)
  {
    LayerMapOfRun(Executed(payload, layers, md5Hex));
  }

  /** Each entry of the `layers` object is what that layer returned for the input the
      orchestrator passed it: the payload, the threat layer's `finalUrl` for intelligence, the
      fingerprint for behavior, and `finalUrl || payload` for reputation. */
  lemma LayerInputs(payload: string, clientInfo: ClientInfo, layers: Layers, md5Hex: string -> string)
    ensures var r := Analysis(payload, clientInfo, layers, md5Hex);
      var finalUrl := FinalUrl(layers.threat(payload));
      && ForensicsLayer in r.layers && r.layers[ForensicsLayer] == layers.forensics(payload)
      && ConsistencyLayer in r.layers && r.layers[ConsistencyLayer] == layers.consistency(payload)
      && ThreatLayer in r.layers && r.layers[ThreatLayer] == layers.threat(payload)
      && IntelligenceLayer in r.layers && r.layers[IntelligenceLayer] == layers.intelligence(payload, finalUrl)
      && BehaviorLayer in r.layers && r.layers[BehaviorLayer] == layers.behavior(r.fingerprint)
      && (ProductLayer in r.layers ==> r.layers[ProductLayer] == layers.product(payload))
      && (ReputationLayer in r.layers ==>
            r.layers[ReputationLayer] == layers.reputation(ReputationTarget(payload, finalUrl)))
  {
    var run := Executed(payload, layers, md5Hex);
    LayerMapOfRun(run);
    assert LayerMap(run)[run[0].0] == run[0].1 && LayerMap(run)[run[3].0] == run[3].1;
    assert LayerMap(run)[run[4].0] == run[4].1;
    if |run| == 6 {
      assert LayerMap(run)[run[5].0] == run[5].1;
    }
  }

  /** Scores that are all non-negative sum to a non-negative total. */
  lemma {:induction false} TotalNonNegative(run: seq<(LayerName, LayerResult)>)
    requires forall k :: 0 <= k < |run| ==> run[k].1.riskScore >= 0
    ensures TotalScore(run) >= 0
    decreases |run|
  {
    if run != [] {
      TotalNonNegative(run[..|run| - 1]);
    }
  }

  /** The final score never exceeds 100; it is non-negative when every layer that ran scored
      non-negatively (there is no lower clamp). */
  lemma ScoreBounds(payload: string, clientInfo: ClientInfo, layers: Layers, md5Hex: string -> string)
    ensures Analysis(payload, clientInfo, layers, md5Hex).riskScore <= 100
    ensures (forall k :: 0 <= k < |Executed(payload, layers, md5Hex)| ==>
               Executed(payload, layers, md5Hex)[k].1.riskScore >= 0)
            ==> Analysis(payload, clientInfo, layers, md5Hex).riskScore >= 0
  {
    var run := Executed(payload, layers, md5Hex);
    if forall k :: 0 <= k < |run| ==> run[k].1.riskScore >= 0 {
      TotalNonNegative(run);
    }
  }

  /** A higher score never yields a less severe verdict. */
  lemma LadderMonotone(a: int, b: int)
    requires a <= b
    ensures Ladder(a).Severity() <= Ladder(b).Severity()
  {
  }

  /** Pointwise higher layer scores give a higher total. */
  lemma {:induction false} TotalMonotone(r1: seq<(LayerName, LayerResult)>, r2: seq<(LayerName, LayerResult)>)
    requires |r1| == |r2|
    requires forall k :: 0 <= k < |r1| ==> r1[k].1.riskScore <= r2[k].1.riskScore
    ensures TotalScore(r1) <= TotalScore(r2)
    decreases |r1|
  {
    if r1 != [] {
      TotalMonotone(r1[..|r1| - 1], r2[..|r2| - 1]);
    }
  }

  /** Raising the score of any layer that runs, with the payload fixed, never lowers the final
      score or the severity of the verdict. */
  lemma VerdictMonotoneInLayers(payload: string, clientInfo: ClientInfo, l1: Layers, l2: Layers,
                                md5Hex: string -> string)
    requires forall k :: 0 <= k < |Executed(payload, l1, md5Hex)| ==>
      Executed(payload, l1, md5Hex)[k].1.riskScore <= Executed(payload, l2, md5Hex)[k].1.riskScore
    ensures Analysis(payload, clientInfo, l1, md5Hex).riskScore <= Analysis(payload, clientInfo, l2, md5Hex).riskScore
    ensures Analysis(payload, clientInfo, l1, md5Hex).verdict.Severity()
         <= Analysis(payload, clientInfo, l2, md5Hex).verdict.Severity()
  {
    TotalMonotone(Executed(payload, l1, md5Hex), Executed(payload, l2, md5Hex));
  }

  // ---------------------------------------------------------------------------------------
  // The discarded overrides

  /** The more severe of two verdicts (the first on a tie). */
  function MostSevere(a: Verdict, b: Verdict): (v: Verdict)
    ensures v == a || v == b
    ensures v.Severity() >= a.Severity() && v.Severity() >= b.Severity()
  {
    if b.Severity() > a.Severity() then b else a
  }

  /** The verdict the overrides were evidently meant to give: the most severe of the threshold
      ladder and the product or reputation override, so that an override only ever raises it. */
  function IntendedVerdict(payload: string, clientInfo: ClientInfo, layers: Layers, md5Hex: string -> string): (v: Verdict)
    ensures v.Severity() >= Analysis(payload, clientInfo, layers, md5Hex).verdict.Severity()
    ensures v.Severity() >= OverrideVerdict(payload, layers, md5Hex).Severity()
    ensures v == Analysis(payload, clientInfo, layers, md5Hex).verdict || v == OverrideVerdict(payload, layers, md5Hex)
  {
    MostSevere(Analysis(payload, clientInfo, layers, md5Hex).verdict, OverrideVerdict(payload, layers, md5Hex))
  }

  /** The verdict `analyze` returns differs from the intended one exactly when an override asked
      for a more severe verdict than the score gives. */
  lemma OverrideLostIff(payload: string, clientInfo: ClientInfo, layers: Layers, md5Hex: string -> string)
    ensures Analysis(payload, clientInfo, layers, md5Hex).verdict != IntendedVerdict(payload, clientInfo, layers, md5Hex)
      <==> OverrideVerdict(payload, layers, md5Hex).Severity() > Analysis(payload, clientInfo, layers, md5Hex).verdict.Severity()
  {
  }

  /** A 13-digit barcode whose product layer scores 60 (an invalid checksum) while every
      other layer scores 0: the product override sets DANGER, the ladder turns it into WARN. */
  lemma OverrideDiscardedExample()
    ensures var quiet := (s: string) => LayerResult(0, [], None);
      var layers := Layers(quiet, quiet, quiet, (s: string, u: Option<string>) => LayerResult(0, [], None), quiet,
                           (s: string) => LayerResult(60, ["Invalid Barcode Checksum"], None), quiet);
      var md5Hex := (s: string) => s;
      var info := ClientInfo(None, None);
      && OverrideVerdict("4006381333931", layers, md5Hex) == Danger
      && Analysis("4006381333931", info, layers, md5Hex).verdict == Warn
      && IntendedVerdict("4006381333931", info, layers, md5Hex) == Danger
  {
    var quiet := (s: string) => LayerResult(0, [], None);
    var layers := Layers(quiet, quiet, quiet, (s: string, u: Option<string>) => LayerResult(0, [], None), quiet,
                         (s: string) => LayerResult(60, ["Invalid Barcode Checksum"], None), quiet);
    var md5Hex := (s: string) => s;
    var p := "4006381333931";
    assert DetectType(p) == Product by { DetectTypeRules(p); }
    ExecutedFold(p, layers, md5Hex);
  }
}
