/** The self-contained legacy rule engine (server/src/utils/deductionEngine.js). */
module LegacyEngine {
  import opened Common
  import opened Strings
  import opened Classification
  import opened Platform

  /** Hostname substrings that mark a shortener or a scam domain. */
  const BlacklistedDomains: seq<string> :=
    ["bit.ly", "tinyurl.com", "goo.gl", "free-gift", "lottery-win", "bank-verify", "secure-login-update"]

  /** Words that mark a text payload as suspicious. */
  const SuspiciousKeywords: seq<string> :=
    ["congratulations", "winner", "lottery", "claim prize", "urgent",
     "verify account", "bank", "password", "pin", "cvv"]

  /** What `analyze` returns. */
  datatype LegacyResult = LegacyResult(verdict: Verdict, riskScore: int, detectedType: DetectedType, findings: seq<string>)

  /** The score and the findings one helper adds to the result. */
  datatype Contribution = Contribution(score: int, findings: seq<string>)

  /** The result object that `analyze` creates and its helpers update in place. */
  class ScanRecord {
    var verdict: Verdict
    var riskScore: int
    var detectedType: DetectedType
    var findings: seq<string>

    constructor ()
      ensures verdict == Safe && riskScore == 0 && detectedType == Undetected && findings == []
    {
      verdict, riskScore, detectedType, findings := Safe, 0, Undetected, [];
    }

    function Value(): LegacyResult
      reads this
    {
      LegacyResult(verdict, riskScore, detectedType, findings)
    }
  }

  // ---------------------------------------------------------------------------------------
  // UPI

  /** `payload.split('?')[1]`: the text between the first and the second '?', if there is a '?'. */
  function QuerySegment(payload: string): Option<string> {
    var parts := Split(payload, '?');
    if |parts| > 1 then Some(parts[1]) else None
  }

  /** `new URLSearchParams(payload.split('?')[1])`; an undefined argument gives no parameters. */
  function UpiParams(payload: string, rt: Runtime): seq<(string, string)> {
    match QuerySegment(payload)
    case None => []
    case Some(q) => rt.parseForm(q)
  }

  /** `params.get(name)`: the value of the first parameter with that name. */
  function Get(params: seq<(string, string)>, name: string): (r: Option<string>)
    ensures r.Some? ==> exists k :: 0 <= k < |params| && params[k] == (name, r.value)
                                    && forall j :: 0 <= j < k ==> params[j].0 != name
    ensures r.None? ==> forall k :: 0 <= k < |params| ==> params[k].0 != name
  {
    if params == [] then None
    else if params[0].0 == name then Some(params[0].1)
    else
      var r := Get(params[1..], name);
      if r.Some? then
        var k :| 0 <= k < |params[1..]| && params[1..][k] == (name, r.value)
                 && forall j :: 0 <= j < k ==> params[1..][j].0 != name;
        assert params[k + 1] == (name, r.value);
        assert forall j :: 0 <= j < k + 1 ==> params[j].0 != name by {
          forall j | 0 <= j < k + 1 ensures params[j].0 != name {
            if j > 0 { assert params[j] == params[1..][j - 1]; }
          }
        }
        r
      else r
  }

  /** `pa && pa.includes('generic') || pa && pa.includes('test')`. */
  predicate SuspiciousVpa(pa: Option<string>) {
    Truthy(pa) && (Contains(pa.value, "generic") || Contains(pa.value, "test"))
  }

  /** What `analyzeUPI` adds. */
  function UpiCheck(payload: string, rt: Runtime): Contribution {
    var params := UpiParams(payload, rt);
    var pa, am := Get(params, "pa"), Get(params, "am");
    var missing := if !Truthy(pa) then Contribution(50, ["Invalid UPI: Missing Payee Address"]) else Contribution(0, []);
    var amount := if Truthy(am) then Contribution(40, ["Pre-filled amount detected: " + am.value]) else Contribution(0, []);
    var vpa := if SuspiciousVpa(pa) then Contribution(30, ["Suspicious VPA pattern"]) else Contribution(0, []);
    Contribution(missing.score + amount.score + vpa.score, missing.findings + amount.findings + vpa.findings)
  }

  /** `analyzeUPI(payload, result)`. */
  method AnalyzeUpi(payload: string, result: ScanRecord, rt: Runtime)
    modifies result
    ensures result.riskScore == old(result.riskScore) + UpiCheck(payload, rt).score
    ensures result.findings == old(result.findings) + UpiCheck(payload, rt).findings
    ensures result.verdict == old(result.verdict) && result.detectedType == old(result.detectedType)
  {
    var params := UpiParams(payload, rt);
    var pa := Get(params, "pa");
    var am := Get(params, "am");

    if !(pa.Some? && pa.value != "") {
      result.riskScore := result.riskScore + 50;
      result.findings := result.findings + ["Invalid UPI: Missing Payee Address"];
    }
    if am.Some? && am.value != "" {
      result.riskScore := result.riskScore + 40;
      result.findings := result.findings + ["Pre-filled amount detected: " + am.value];
    }
    if (pa.Some? && pa.value != "" && Contains(pa.value, "generic"))
       || (pa.Some? && pa.value != "" && Contains(pa.value, "test")) {
      result.riskScore := result.riskScore + 30;
      result.findings := result.findings + ["Suspicious VPA pattern"];
    }
  }

  // ---------------------------------------------------------------------------------------
  // URL

  /** `blacklistedDomains.some(d => domain.includes(d))`. */
  predicate Blacklisted(domain: string) {
    exists i :: 0 <= i < |BlacklistedDomains| && Contains(domain, BlacklistedDomains[i])
  }

  /** `/^\d{1,3}\.\d{1,3}\.\d{1,3}\.\d{1,3}$/`: four runs of one to three digits joined by dots. */
  predicate IsDottedQuad(s: string) {
    var parts := Split(s, '.');
    |parts| == 4 && forall k :: 0 <= k < 4 ==> 1 <= |parts[k]| <= 3 && AllDigits(parts[k])
  }

  /** What `analyzeURL` adds. */
  function UrlCheck(payload: string, rt: Runtime): Contribution {
    match rt.parseUrl(payload)
    case None => Contribution(20, ["Malformed URL"])
    case Some(u) =>
      var domain := ToLower(u.hostname);
      var insecure := if u.protocol == "http:" then Contribution(40, ["Insecure Protocol (HTTP)"]) else Contribution(0, []);
      var listed := if Blacklisted(domain) then Contribution(60, ["Suspicious Domain or Shortener Detected"]) else Contribution(0, []);
      var ip := if IsDottedQuad(domain) then Contribution(70, ["Direct IP Access Detected"]) else Contribution(0, []);
      Contribution(insecure.score + listed.score + ip.score, insecure.findings + listed.findings + ip.findings)
  }

  /** `analyzeURL(payload, result)`. A URL that does not parse lands in the catch block. */
  method AnalyzeUrl(payload: string, result: ScanRecord, rt: Runtime)
    modifies result
    ensures result.riskScore == old(result.riskScore) + UrlCheck(payload, rt).score
    ensures result.findings == old(result.findings) + UrlCheck(payload, rt).findings
    ensures result.verdict == old(result.verdict) && result.detectedType == old(result.detectedType)
  {
    var parsed := rt.parseUrl(payload);
    if parsed.None? {
      result.riskScore := result.riskScore + 20;
      result.findings := result.findings + ["Malformed URL"];
      return;
    }
    var parsedUrl := parsed.value;
    if parsedUrl.protocol == "http:" {
      result.riskScore := result.riskScore + 40;
      result.findings := result.findings + ["Insecure Protocol (HTTP)"];
    }
    var domain := ToLower(parsedUrl.hostname);
    var isSuspicious := Blacklisted(domain);
    if isSuspicious {
      result.riskScore := result.riskScore + 60;
      result.findings := result.findings + ["Suspicious Domain or Shortener Detected"];
    }
    if IsDottedQuad(domain) {
      result.riskScore := result.riskScore + 70;
      result.findings := result.findings + ["Direct IP Access Detected"];
    }
  }

  // ---------------------------------------------------------------------------------------
  // Text

  /** The keywords of `words` that occur in `lower`, in list order. */
  function Matched(lower: string, words: seq<string>): (m: seq<string>)
    ensures |m| <= |words|
  {
    if words == [] then []
    else Matched(lower, words[..|words| - 1])
         + (if Contains(lower, words[|words| - 1]) then [words[|words| - 1]] else [])
  }

  /** One finding per matched keyword. */
  function KeywordFindings(matched: seq<string>): (f: seq<string>)
    ensures |f| == |matched|
  {
    if matched == [] then []
    else KeywordFindings(matched[..|matched| - 1]) + ["Suspicious keyword: " + matched[|matched| - 1]]
  }

  /** Matching one more keyword of the list. */
  lemma MatchedStep(lower: string, words: seq<string>, i: nat)
    requires i < |words|
    ensures Matched(lower, words[..i + 1])
      == Matched(lower, words[..i]) + (if Contains(lower, words[i]) then [words[i]] else [])
  {
    assert words[..i + 1][..i] == words[..i];
  }

  lemma KeywordFindingsSnoc(matched: seq<string>, word: string)
    ensures KeywordFindings(matched + [word]) == KeywordFindings(matched) + ["Suspicious keyword: " + word]
  {
    assert (matched + [word])[..|matched|] == matched;
  }

  /** What `analyzeText` adds for a keyword list, given the lower-cased payload. */
  function KeywordCheck(lower: string, keywords: seq<string>): Contribution {
    var matched := Matched(lower, keywords);
    Contribution(if |matched| > 0 then |matched| * 20 else 0, KeywordFindings(matched))
  }

  /** What `analyzeText` adds with the engine's keyword list. */
  function TextCheck(payload: string): Contribution {
    KeywordCheck(ToLower(payload), SuspiciousKeywords)
  }

  /** `analyzeText(payload, result)`, with the engine's `suspiciousKeywords` list passed in:
      counts the keywords in a loop, then adds 20 per keyword and sets DANGER when there are
      three or more. */
  method AnalyzeText(payload: string, keywords: seq<string>, result: ScanRecord)
    modifies result
    ensures result.riskScore == old(result.riskScore) + KeywordCheck(ToLower(payload), keywords).score
    ensures result.findings == old(result.findings) + KeywordCheck(ToLower(payload), keywords).findings
    ensures result.verdict == (if |Matched(ToLower(payload), keywords)| >= 3 then Danger else old(result.verdict))
    ensures result.detectedType == old(result.detectedType)
  {
    var lowerPayload := ToLower(payload);
    var keywordCount := 0;
    var i := 0;
    while i < |keywords|
      invariant 0 <= i <= |keywords|
      invariant keywordCount == |Matched(lowerPayload, keywords[..i])|
      invariant result.findings == old(result.findings) + KeywordFindings(Matched(lowerPayload, keywords[..i]))
      invariant result.riskScore == old(result.riskScore) && result.verdict == old(result.verdict)
      invariant result.detectedType == old(result.detectedType)
    {
      var word := keywords[i];
      ghost var m := Matched(lowerPayload, keywords[..i]);
      MatchedStep(lowerPayload, keywords, i);
      KeywordFindingsSnoc(m, word);
      if Contains(lowerPayload, word) {
        keywordCount := keywordCount + 1;
        result.findings := result.findings + ["Suspicious keyword: " + word];
        assert result.findings == old(result.findings) + KeywordFindings(m + [word]);
      } else {
        assert m + [] == m;
      }
      i := i + 1;
    }
    assert keywords[..i] == keywords;
    if keywordCount > 0 {
      result.riskScore := result.riskScore + keywordCount * 20;
    }
    if keywordCount >= 3 {
      result.verdict := Danger;
    }
  }

  // ---------------------------------------------------------------------------------------
  // The engine

  /** The final ladder: there is no SUSPICIOUS tier and no upper clamp. */
  function LegacyLadder(score: int): Verdict {
    if score >= 80 then Danger else if score >= 40 then Warn else Safe
  }

  /** The rule `analyze` applies to a payload, by prefix. */
  function LegacyType(payload: string): DetectedType {
    if StartsWith(payload, "upi://") then Upi
    else if StartsWith(payload, "http://") || StartsWith(payload, "https://") then Url
    else Text
  }

  /** What `analyze` returns. */
  function Analysis(payload: string, rt: Runtime): LegacyResult {
    if payload == [] then LegacyResult(Safe, 0, Undetected, [])
    else
      var c := Check(payload, rt);
      LegacyResult(LegacyLadder(c.score), c.score, LegacyType(payload), c.findings)
  }

  /** What the helper chosen by the dispatch adds to a fresh result. */
  function Check(payload: string, rt: Runtime): Contribution {
    match LegacyType(payload)
    case Upi => UpiCheck(payload, rt)
    case Url => UrlCheck(payload, rt)
    case _ => TextCheck(payload)
  }

  /** `DeductionEngine.analyze`. */
  method Analyze(payload: string, rt: Runtime) returns (r: LegacyResult)
    ensures r == Analysis(payload, rt)
  {
    var result := new ScanRecord();
    if payload == [] {
      return result.Value();
    }
    if StartsWith(payload, "upi://") {
      result.detectedType := Upi;
      AnalyzeUpi(payload, result, rt);
    } else if StartsWith(payload, "http://") || StartsWith(payload, "https://") {
      result.detectedType := Url;
      AnalyzeUrl(payload, result, rt);
    } else {
      result.detectedType := Text;
      AnalyzeText(payload, SuspiciousKeywords, result);
    }
    assert result.riskScore == Check(payload, rt).score && result.findings == Check(payload, rt).findings;
    if result.riskScore >= 80 {
      result.verdict := Danger;
    } else if result.riskScore >= 40 {
      result.verdict := Warn;
    } else {
      result.verdict := Safe;
    }
    r := result.Value();
  }

  // ---------------------------------------------------------------------------------------
  // Properties

  /** The rule `analyze` dispatches on: UPI before URL, both by exact prefix, everything else
      non-empty is text. A bare "http" prefix without "://" is text. */
  lemma DispatchRules(payload: string, rt: Runtime)
    ensures payload == [] ==> Analysis(payload, rt) == LegacyResult(Safe, 0, Undetected, [])
    ensures payload != [] ==> (Analysis(payload, rt).detectedType == Upi <==> StartsWith(payload, "upi://"))
    ensures payload != [] ==> (Analysis(payload, rt).detectedType == Url
                               <==> !StartsWith(payload, "upi://") && (StartsWith(payload, "http://") || StartsWith(payload, "https://")))
    ensures payload != [] ==> (Analysis(payload, rt).detectedType == Text
                               <==> !StartsWith(payload, "upi://") && !StartsWith(payload, "http://") && !StartsWith(payload, "https://"))
  {
  }

  /** Only a UPI payload looks at its query parameters, and only a URL payload is parsed. */
  lemma HelperByType(payload: string, rt: Runtime)
    requires payload != []
    ensures LegacyType(payload) == Upi ==> Analysis(payload, rt).findings == UpiCheck(payload, rt).findings
    ensures LegacyType(payload) == Url ==> Analysis(payload, rt).findings == UrlCheck(payload, rt).findings
    ensures LegacyType(payload) == Text ==> Analysis(payload, rt).findings == TextCheck(payload).findings
  {
  }

  /** The query segment is the text after the first '?', up to the next '?' or the end:
      `pre` is the text before the first '?' and `post` what follows the segment. */
  lemma QuerySegmentShape(payload: string) returns (pre: string, post: string)
    ensures QuerySegment(payload).None? <==> '?' !in payload
    ensures QuerySegment(payload).Some? ==>
      var q := QuerySegment(payload).value;
      '?' !in pre && '?' !in q && payload == pre + "?" + q + post && (post == [] || post[0] == '?')
  {
    var parts := Split(payload, '?');
    JoinSplit(payload, '?');
    pre, post := parts[0], [];
    if |parts| == 1 {
      assert payload == parts[0];
    } else {
      post := QuerySegmentParts(parts);
      assert payload == parts[0] + "?" + parts[1] + post;
      assert payload[|parts[0]|] == '?';
    }
  }

  /** Joining at least two parts with "?" gives the first part, '?', the second part, and then
      either nothing or text that starts with '?'. */
  lemma QuerySegmentParts(parts: seq<string>) returns (post: string)
    requires |parts| > 1
    ensures Join(parts, "?") == parts[0] + "?" + parts[1] + post && (post == [] || post[0] == '?')
  {
    var rest := Join(parts[1..], "?");
    assert Join(parts, "?") == parts[0] + "?" + rest;
    if |parts| == 2 {
      post := [];
      assert rest == parts[1];
    } else {
      post := "?" + Join(parts[2..], "?");
      assert parts[1..][1..] == parts[2..];
      assert rest == parts[1] + post;
    }
  }

  /** The UPI check adds 50 exactly when the payee address is missing, 40 exactly when an amount
      is present, and 30 only when a payee address is present; so its score is one of a few values. */
  lemma UpiScoreValues(payload: string, rt: Runtime)
    ensures var params := UpiParams(payload, rt); var c := UpiCheck(payload, rt);
      (Truthy(Get(params, "pa")) ==> c.score in {0, 30, 40, 70}) &&
      (!Truthy(Get(params, "pa")) ==> c.score in {50, 90} && "Suspicious VPA pattern" !in c.findings)
    ensures |UpiCheck(payload, rt).findings| * 10 <= UpiCheck(payload, rt).score
  {
  }

  /** Every character of a dotted quad is a digit or a dot. */
  lemma DottedQuadChars(d: string, x: char)
    requires IsDottedQuad(d) && x in d
    ensures IsDigit(x) || x == '.'
  {
    var parts := Split(d, '.');
    JoinSplit(d, '.');
    JoinChars(parts, ".", x);
    if x != '.' {
      var k :| 0 <= k < |parts| && x in parts[k];
      var i :| 0 <= i < |parts[k]| && parts[k][i] == x;
      assert AllDigits(parts[k]);
    }
  }

  /** Every blacklist entry holds a letter, so no dotted quad is blacklisted: the two URL penalties
      of 60 and 70 never add up. */
  lemma DottedQuadNotBlacklisted(d: string)
    requires IsDottedQuad(d)
    ensures !Blacklisted(d)
  {
    if Blacklisted(d) {
      var i :| 0 <= i < |BlacklistedDomains| && Contains(d, BlacklistedDomains[i]);
      var entry := BlacklistedDomains[i];
      assert 'a' <= entry[0] <= 'z';
      ContainsChars(d, entry, entry[0]);
      DottedQuadChars(d, entry[0]);
    }
  }

  /** A URL that does not parse scores 20 and says so; one that parses scores one of the sums
      of 40, 60 and 70 that can occur, at most 110. */
  lemma UrlScoreValues(payload: string, rt: Runtime)
    ensures rt.parseUrl(payload).None? ==> UrlCheck(payload, rt) == Contribution(20, ["Malformed URL"])
    ensures rt.parseUrl(payload).Some? ==> UrlCheck(payload, rt).score in {0, 40, 60, 70, 100, 110}
    ensures UrlCheck(payload, rt).score <= 110
  {
    match rt.parseUrl(payload)
    case None =>
    case Some(u) =>
      var domain := ToLower(u.hostname);
      if IsDottedQuad(domain) {
        DottedQuadNotBlacklisted(domain);
      }
  }

  /** The keywords are written in lower-case letters and spaces, so they can match the
      lower-cased payload. */
  lemma KeywordsLowerCase(w: string)
    requires w in SuspiciousKeywords
    ensures forall k :: 0 <= k < |w| ==> 'a' <= w[k] <= 'z' || w[k] == ' '
  {
    var i :| 0 <= i < |SuspiciousKeywords| && SuspiciousKeywords[i] == w;
    assert i in {0, 1, 2, 3, 4, 5, 6, 7, 8, 9};
  }

  /** The k-th keyword finding names the k-th matched keyword. */
  lemma {:induction false} KeywordFindingsAt(matched: seq<string>, k: nat)
    requires k < |matched|
    ensures KeywordFindings(matched)[k] == "Suspicious keyword: " + matched[k]
    decreases |matched|
  {
    if k < |matched| - 1 {
      KeywordFindingsAt(matched[..|matched| - 1], k);
    }
  }

  /** A keyword is matched exactly when it is in the list and occurs in the text. */
  lemma {:induction false} MatchedIff(lower: string, words: seq<string>, w: string)
    ensures w in Matched(lower, words) <==> w in words && Contains(lower, w)
    decreases |words|
  {
    if words != [] {
      var init := words[..|words| - 1];
      MatchedIff(lower, init, w);
      assert words == init + [words[|words| - 1]];
    }
  }

  /** The text check scores 20 per matched keyword and reports each one, in list order. */
  lemma TextScoreValues(payload: string)
    ensures var matched := Matched(ToLower(payload), SuspiciousKeywords);
      TextCheck(payload).score == 20 * |matched| && TextCheck(payload).score <= 200 &&
      |TextCheck(payload).findings| == |matched| &&
      forall k :: 0 <= k < |matched| ==> TextCheck(payload).findings[k] == "Suspicious keyword: " + matched[k]
  {
    var matched := Matched(ToLower(payload), SuspiciousKeywords);
    forall k | 0 <= k < |matched|
      ensures TextCheck(payload).findings[k] == "Suspicious keyword: " + matched[k]
    {
      KeywordFindingsAt(matched, k);
    }
  }

  /** The final verdict is the ladder applied to the final score: never SUSPICIOUS, and the
      text helper's DANGER is always replaced. The score is a non-negative multiple of ten. */
  lemma VerdictFromScore(payload: string, rt: Runtime)
    ensures Analysis(payload, rt).verdict == LegacyLadder(Analysis(payload, rt).riskScore)
    ensures Analysis(payload, rt).verdict in {Safe, Warn, Danger}
    ensures 0 <= Analysis(payload, rt).riskScore <= 200 && Analysis(payload, rt).riskScore % 10 == 0
  {
    if payload != [] {
      CheckScoreValues(payload, rt);
    }
  }

  lemma CheckScoreValues(payload: string, rt: Runtime)
    ensures 0 <= Check(payload, rt).score <= 200 && Check(payload, rt).score % 10 == 0
  {
    match LegacyType(payload)
    case Upi => UpiScoreValues(payload, rt);
    case Url => UrlScoreValues(payload, rt);
    case _ => TextScoreValues(payload);
  }

  /** As written: a text payload with exactly three keywords, which `analyzeText` marks DANGER,
      ends as WARN, since three keywords score 60 and the final ladder overwrites the verdict. */
  lemma KeywordOverrideLost(payload: string, rt: Runtime)
    requires payload != [] && LegacyType(payload) == Text
    requires |Matched(ToLower(payload), SuspiciousKeywords)| == 3
    ensures Analysis(payload, rt).verdict == Warn
    ensures IntendedAnalysis(payload, rt).verdict == Danger
  {
    TextScoreValues(payload);
  }

  /** `analyze` with the text helper's override kept: three or more keywords give DANGER. */
  function IntendedAnalysis(payload: string, rt: Runtime): (r: LegacyResult)
    ensures r.riskScore == Analysis(payload, rt).riskScore && r.findings == Analysis(payload, rt).findings
    ensures r.detectedType == Analysis(payload, rt).detectedType
  {
    var a := Analysis(payload, rt);
    if payload != [] && LegacyType(payload) == Text && |Matched(ToLower(payload), SuspiciousKeywords)| >= 3
    then a.(verdict := Danger)
    else a
  }

  /** The intended verdict is DANGER for three or more keywords, never milder than the ladder,
      and differs from the written one only for exactly three keywords. */
  lemma IntendedVerdictRules(payload: string, rt: Runtime)
    ensures payload != [] && LegacyType(payload) == Text && |Matched(ToLower(payload), SuspiciousKeywords)| >= 3
            ==> IntendedAnalysis(payload, rt).verdict == Danger
    ensures Analysis(payload, rt).verdict.Severity() <= IntendedAnalysis(payload, rt).verdict.Severity()
    ensures IntendedAnalysis(payload, rt) != Analysis(payload, rt)
            <==> payload != [] && LegacyType(payload) == Text && |Matched(ToLower(payload), SuspiciousKeywords)| == 3
  {
    VerdictFromScore(payload, rt);
    if payload != [] && LegacyType(payload) == Text {
      TextScoreValues(payload);
    }
  }
}
