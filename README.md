# Scam classification pipeline of the QR safety scanner

This project models the part of the QR safety scanner that decides whether a scanned payload
is a scam, and proves properties of that model. A payload is the text a QR code or barcode
decodes to: a UPI payment URI, a web link, a product barcode or plain text. The modelled
pipeline has these parts:

- **Input hardening** (`ScanController`). The scan endpoint rejects a missing or oversized
  payload. It removes every control character, trims whitespace at both ends only, and
  rejects text that is empty after cleaning.
- **Layered deduction engine** (`Engine`). The engine fingerprints the payload and classifies
  it by prefix and shape. It runs five layers always, the product layer for barcodes and the
  reputation layer for links. It adds up their risk, caps the score at 100 and maps it to a
  verdict.
- **Legacy rule engine** (`LegacyEngine`). This older engine checks UPI parameters, link
  protocol, blacklisted hosts and raw IP hosts, and suspicious keywords. Its result object
  is updated in place by one helper per payload kind. The scan controller imports the
  layered engine (server/src/controllers/scanController.js:2), and no other modelled file
  calls the legacy engine, so its results reach neither the stored entry nor the humanizer
  through the modelled code.
- **Parser** (`Parsers`). The parser extracts structured data for each payload kind.
- **Explanation generator** (`Explanation`). It builds the sentence that is stored with a scan.
- **Client humanizer** (`Humanizer`). It turns a scan result into a headline, advice and at
  most three rewritten evidence signals.
- **Controller rules** (`ScanController`). These cover audit gating, the stored entry, the
  rule that nothing is written for a null or invalid parse, history pagination and the
  ownership check for one scan.
- **Cross-part facts** (`Pipeline`). These follow from how the parts are combined.

Shared modules:

- `Common`: JavaScript's null/undefined as `Option`, and numbers with truthiness.
- `Strings`: the JavaScript string operations the code uses (`startsWith`, `includes`,
  `indexOf`, `replace` with a string pattern, `split`, `trim`, `toLowerCase`, `substring`,
  UTF-16 `length`, integer printing).
- `Classification`: verdicts and detected types.
- `Platform`: runtime services kept abstract.

Each part takes the form of its source:

- The two engines, `parseUPI` and the explanation generator update state step by step, so
  they are methods.
  - `Engine.RunLayers` and `Engine.Analyze` accumulate the result's fields layer by layer.
  - `LegacyEngine.ScanRecord` is the result object. `AnalyzeUpi`, `AnalyzeUrl` and
    `AnalyzeText` update it under `modifies`, and `AnalyzeText` keeps the keyword loop.
  - `Parsers.ParseUpi` copies the query parameters in a loop.
  - `Explanation.GenerateExplanation` pushes clauses and appends sentences.
- Each method is proved equal to a specification function. The properties are then lemmas
  about that function.
- The humanizer and the controller's decision rules are pure functions.

The engine's seven layer modules are outside this model. They are parameters: functions
from the input the orchestrator hands a layer to what the layer returns, fixed for one call.
`Platform.Runtime` bundles the same kind of parameter for these runtime services:

- URL parsing (`new URL`), where a throw is `None`;
- `URLSearchParams` parsing;
- `parseFloat`;
- printing a number;
- MD5.

Facts about the code that the model keeps:

- The engine lets the ladder overwrite the product and reputation overrides. See Findings.
- The final score has no lower clamp. It is guaranteed to be non-negative when every
  executed layer scores non-negatively; a negative layer score can make it negative
  (`Engine.ScoreBounds`).
- The parser sends a payload to URL parsing when it has a dot and no space character.
- The parser recognises only 13-digit barcodes (EAN-13).
- A layer that throws is not caught by the engine. The whole request fails.
- A reputation `score` of `null` forces DANGER like a score below 30, because JavaScript
  compares `null < 30` as `0 < 30`; a missing score does not (`Engine.BelowThirty`).

## Model

Each function that defines an operation is stated through the lemma or method rows that
characterise it. The table has no separate rows for these functions:

- `Engine.DetectType` (server/src/engine/ScamDeductionEngineV4.js:38-41):
  `Engine.DetectTypeRules`.
- `Engine.OverrideVerdict` (ScamDeductionEngineV4.js:70-90): `Engine.OverrideLostIff` and
  `Engine.IntendedVerdict`.
- `Engine.BelowThirty` and `Engine.ReputationForcesDanger` (ScamDeductionEngineV4.js:88):
  `Engine.RunLayers` and `Engine.OverrideLostIff`.
- `ScanController.Admit` (server/src/controllers/scanController.js:14-18):
  `ScanController.AdmitRules`.
- `ScanController.DenyAccess` (scanController.js:136): `ScanController.AccessRules`.
- `Humanizer.Advice` (client/src/utils/verdictHumanizer.js:18-58): `Humanizer.AdviceByType`.
- `Humanizer.Rewrite` (verdictHumanizer.js:64-66): `Humanizer.RewriteKeeps` and
  `Humanizer.RewriteOne`.
- `Humanizer.Signals` (verdictHumanizer.js:62-67): `Humanizer.SignalRules`.
- `Explanation.ExplanationText` (server/src/utils/verdictGenerator.js:4-30):
  `Explanation.GenerateExplanation`, `Explanation.ExplanationShape`,
  `Explanation.SubjectRules` and `Explanation.VerdictTails`.
- `LegacyEngine.UpiCheck` (server/src/utils/deductionEngine.js:52-66):
  `LegacyEngine.AnalyzeUpi` and `LegacyEngine.UpiScoreValues`.
- `LegacyEngine.UrlCheck` (deductionEngine.js:69-99): `LegacyEngine.AnalyzeUrl` and
  `LegacyEngine.UrlScoreValues`.
- `LegacyEngine.TextCheck` (deductionEngine.js:101-119): `LegacyEngine.AnalyzeText`,
  `LegacyEngine.MatchedIff` and `LegacyEngine.TextScoreValues`.
- `Parsers.UpiFields` (server/src/utils/parsers.js:21-25): `Parsers.ParseUpi` and
  `Parsers.UpiDefaults`.
- `Parsers.UrlLike` (parsers.js:88): `Parsers.PayloadDispatch`.

| member | source | states |
|---|---|---|
| Engine.Ladder | server/src/engine/ScamDeductionEngineV4.js:97-105 | the threshold ladder yields only SAFE, SUSPICIOUS, WARN or DANGER |
| Engine.RunLayers | server/src/engine/ScamDeductionEngineV4.js:15-91 | running the layers one by one leaves the md5 fingerprint, the type from `DetectType`, and the score, findings and `layers` object of the executed layers folded in order; the verdict is the one the product and reputation overrides set |
| Engine.Analyze | server/src/engine/ScamDeductionEngineV4.js:15-107 | the returned result equals `Analysis`: the layers' sum capped at 100, the ladder's verdict for it, findings and layers in execution order, fingerprint and client info |
| Engine.DetectTypeRules | server/src/engine/ScamDeductionEngineV4.js:38-41 | UPI iff prefix `upi://`; URL iff prefix `http` and not `upi://`; PRODUCT iff 12 to 14 digits; TEXT otherwise; never UNKNOWN |
| Engine.ScoreIsClampedSum | server/src/engine/ScamDeductionEngineV4.js:32-94 | the final score is the minimum of 100 and the sum of the five unconditional layers' scores plus the product score for PRODUCT and the reputation score for URL |
| Engine.FindingsInExecutionOrder | server/src/engine/ScamDeductionEngineV4.js:32-86 | the findings are the layers' findings concatenated in execution order, with the gated layers only for their type |
| Engine.LayerKeys | server/src/engine/ScamDeductionEngineV4.js:33-84 | `layers` holds the five unconditional layers always, `product` iff PRODUCT, `reputation` iff URL, never both |
| Engine.LayerInputs | server/src/engine/ScamDeductionEngineV4.js:55-83 | each stored layer result is that layer applied to its input: the payload, `finalUrl` from the threat layer for intelligence, the fingerprint for behavior, `finalUrl`, or else the payload, for reputation |
| Engine.ScoreBounds | server/src/engine/ScamDeductionEngineV4.js:94 | the final score is at most 100, and at least 0 whenever every executed layer's score is non-negative |
| Engine.LadderMonotone | server/src/engine/ScamDeductionEngineV4.js:97-105 | a higher score never gives a less severe verdict |
| Engine.VerdictMonotoneInLayers | server/src/engine/ScamDeductionEngineV4.js:32-105 | raising executed layers' scores pointwise never lowers the final score or the verdict's severity |
| Engine.IntendedVerdict | server/src/engine/ScamDeductionEngineV4.js:76-90 | corrected verdict: at least as severe as both the ladder's verdict and the override's, and equal to one of them |
| Engine.OverrideLostIff | server/src/engine/ScamDeductionEngineV4.js:76-105 | the returned verdict differs from the intended one exactly when an override asked for a more severe verdict than the score gives |
| Engine.OverrideDiscardedExample | server/src/engine/ScamDeductionEngineV4.js:70-105 | for barcode 4006381333931 with product score 60 and all other layers 0, the override sets DANGER, `analyze` returns WARN and the intended verdict is DANGER |
| LegacyEngine.ScanRecord.constructor | server/src/utils/deductionEngine.js:16-21 | a fresh result is SAFE, score 0, type UNKNOWN, no findings |
| LegacyEngine.Get | server/src/utils/deductionEngine.js:48-49 | `params.get` returns the value of the first pair with that name, and null only when no pair has it |
| LegacyEngine.AnalyzeUpi | server/src/utils/deductionEngine.js:45-67 | the record's score and findings grow by exactly `UpiCheck` (50 for a falsy `pa`, 40 and the amount for a truthy `am`, 30 for `generic` or `test` in `pa`); verdict and type are unchanged |
| LegacyEngine.AnalyzeUrl | server/src/utils/deductionEngine.js:69-99 | the record grows by exactly `UrlCheck`: 20 and "Malformed URL" when parsing throws, otherwise 40 for `http:`, 60 for a blacklisted lower-cased host, 70 for a dotted quad |
| LegacyEngine.AnalyzeText | server/src/utils/deductionEngine.js:101-119 | after the keyword loop the record has one finding per keyword found in the lower-cased payload, in list order, 20 points per keyword, and DANGER iff three or more matched |
| LegacyEngine.Analyze | server/src/utils/deductionEngine.js:15-43 | the returned result equals `Analysis`: the empty payload gives the fresh result, otherwise the dispatched check with the final ladder applied |
| LegacyEngine.DispatchRules | server/src/utils/deductionEngine.js:23-35 | empty gives SAFE/0/UNKNOWN; UPI iff prefix `upi://`; URL iff `http://` or `https://` and not UPI; TEXT otherwise |
| LegacyEngine.HelperByType | server/src/utils/deductionEngine.js:26-35 | the findings of a non-empty payload are exactly those of the helper its type selects |
| LegacyEngine.QuerySegmentShape | server/src/utils/deductionEngine.js:47 | `split('?')[1]` is undefined iff there is no '?'; otherwise the payload is text without '?', a '?', the segment without '?', then nothing or text starting with '?' |
| LegacyEngine.UpiScoreValues | server/src/utils/deductionEngine.js:52-66 | with a truthy `pa` the UPI score is 0, 30, 40 or 70; without it 50 or 90 and no VPA finding; at least 10 points per finding |
| LegacyEngine.DottedQuadNotBlacklisted | server/src/utils/deductionEngine.js:83-93 | no dotted-quad host is blacklisted, because every blacklist entry starts with a letter |
| LegacyEngine.UrlScoreValues | server/src/utils/deductionEngine.js:69-99 | an unparseable URL gives exactly (20, ["Malformed URL"]); a parsed one scores 0, 40, 60, 70, 100 or 110; so never more than 110 |
| LegacyEngine.KeywordsLowerCase | server/src/utils/deductionEngine.js:9-12 | every suspicious keyword consists of lower-case ASCII letters and spaces |
| LegacyEngine.MatchedIff | server/src/utils/deductionEngine.js:105-110 | a word is matched iff it is in the list and occurs in the lower-cased text |
| LegacyEngine.TextScoreValues | server/src/utils/deductionEngine.js:104-114 | the text score is 20 times the number of matched keywords, at most 200, and the k-th finding names the k-th matched keyword |
| LegacyEngine.VerdictFromScore | server/src/utils/deductionEngine.js:37-40 | the final verdict is the ladder of the final score, never SUSPICIOUS; the score is a multiple of 10 between 0 and 200 |
| LegacyEngine.CheckScoreValues | server/src/utils/deductionEngine.js:26-35 | whichever helper runs adds a multiple of 10 between 0 and 200 |
| LegacyEngine.KeywordOverrideLost | server/src/utils/deductionEngine.js:112-118 | a text payload with exactly three keywords, which `analyzeText` marks DANGER, is returned as WARN, while the intended analysis gives DANGER |
| LegacyEngine.IntendedAnalysis | server/src/utils/deductionEngine.js:116-118 | corrected analysis: same score, findings and type as `analyze` |
| LegacyEngine.IntendedVerdictRules | server/src/utils/deductionEngine.js:116-118 | the corrected verdict is DANGER for three or more keywords and never milder than the written one; it differs only for exactly three keywords |
| Parsers.FromEntriesLastWins | server/src/utils/parsers.js:12-15 | a key is in the dictionary iff some pair has it, and its value is that of the last such pair |
| Parsers.ParseUpi | server/src/utils/parsers.js:7-31 | the loop-built dictionary and fields give `UpiResult`: "Malformed UPI URI" when parsing throws, null for a scheme other than `upi:`, otherwise the payment data |
| Parsers.UpiOutcomes | server/src/utils/parsers.js:8-30 | invalid iff URL parsing throws; null iff it parses with a scheme other than `upi:`; a valid result is UPI data tagged "UPI" |
| Parsers.UpiDefaults | server/src/utils/parsers.js:21-25 | `pa`, `pn` and `tn` missing or empty give null and a present non-empty value is kept as is; `cu` missing or empty gives INR and a present non-empty one is kept; `am` is parsed iff non-empty |
| Parsers.UpiLastPayeeWins | server/src/utils/parsers.js:13-21 | with a repeated `pa`, the payee address is the value of the last `pa` pair |
| Parsers.UrlString | server/src/utils/parsers.js:39 | `http://` is prefixed exactly when the payload does not start with `http` |
| Parsers.ParseUrl | server/src/utils/parsers.js:36-55 | always tagged "URL"; invalid with error "Invalid URL" exactly when the prefixed string does not parse |
| Parsers.UrlFields | server/src/utils/parsers.js:45-50 | for a scheme without ':', the protocol is the scheme without its colon; domain, path and params come from the parsed URL |
| Parsers.ParseGeneral | server/src/utils/parsers.js:60-81 | always valid; "product" iff exactly 13 digits, with format EAN-13 and the first three digits as prefix; otherwise "TEXT" with a preview that is a prefix of at most 50 characters |
| Parsers.ParsePayload | server/src/utils/parsers.js:83-95 | the dispatch returns `PayloadResult`: UPI parser for `upi://`, URL parser for `http` or dot-without-space, general parser otherwise |
| Parsers.PayloadDispatch | server/src/utils/parsers.js:86-92 | each type tag holds exactly under its routing condition; only UPI can give null, and only UPI and URL can be invalid |
| Explanation.GenerateExplanation | server/src/utils/verdictGenerator.js:4-30 | the pushed clauses and appended sentences equal `ExplanationText`; none when the parse is null or invalid (the source throws reading absent data) |
| Explanation.ExplanationShape | server/src/utils/verdictGenerator.js:5-19 | a text exists iff the parse is valid; it starts with the opening words followed by the joined clauses and ". " |
| Explanation.SubjectRules | server/src/utils/verdictGenerator.js:8-17 | UPI gives the payee or "an unknown payee" and an amount clause iff the amount is truthy; URL, product and text each give one fixed clause |
| Explanation.VerdictTails | server/src/utils/verdictGenerator.js:21-27 | DANGER and SCAM give the same text; WARN and UNKNOWN add nothing after the subject |
| Explanation.TiersDistinct | server/src/utils/verdictGenerator.js:21-27 | on the same data, SAFE, SUSPICIOUS, WARN and DANGER always give different texts |
| Explanation.TailStart | server/src/utils/verdictGenerator.js:22-26 | the verdict sentence starts with 'N' for SAFE, 'C' for SUSPICIOUS and 'H' for DANGER or SCAM, and is empty otherwise |
| Explanation.ScoreInText | server/src/utils/verdictGenerator.js:24-26 | for SUSPICIOUS, DANGER and SCAM, different scores give different texts |
| Explanation.ScoreIgnored | server/src/utils/verdictGenerator.js:22 | SAFE, WARN and UNKNOWN texts do not depend on the score |
| Explanation.PlainSentence | server/src/utils/verdictGenerator.js:5 | every generated text starts with 'W' |
| Humanizer.Humanize | client/src/utils/verdictHumanizer.js:1-78 | a missing result gives null and any other gives a value; the score is passed through |
| Humanizer.HeadlineByTier | client/src/utils/verdictHumanizer.js:13-59 | summary, colour and icon depend only on the verdict's tier |
| Humanizer.SummaryRules | client/src/utils/verdictHumanizer.js:13-54 | "High Risk Detected" iff DANGER or SCAM; "Proceed with Caution" iff WARN or SUSPICIOUS; "No Threats Found" iff any other verdict |
| Humanizer.AdviceByType | client/src/utils/verdictHumanizer.js:18-58 | the clear tier ignores the type; the other tiers treat every type outside UPI, URL and PRODUCT alike |
| Humanizer.SignalRules | client/src/utils/verdictHumanizer.js:62-67 | no findings give no signals; otherwise the first min(3, n) findings, each rewritten in place |
| Humanizer.RewriteKeeps | client/src/utils/verdictHumanizer.js:64-66 | a finding with none of the three phrases is left unchanged |
| Humanizer.RewriteOne | client/src/utils/verdictHumanizer.js:64 | a finding with "High Entropy Domain" and no 'I' or 'K' has that phrase's first occurrence replaced and nothing else |
| ScanController.StripControl | server/src/controllers/scanController.js:17 | stripping leaves no control character and never lengthens the text |
| ScanController.AdmitRules | server/src/controllers/scanController.js:14-18 | INVALID_PAYLOAD iff absent or empty; PAYLOAD_TOO_LARGE iff more than 2048 UTF-16 units before cleaning; EMPTY_PAYLOAD iff nothing is left after cleaning |
| ScanController.CleanHasNoControl | server/src/controllers/scanController.js:17 | the cleaned text has no control character |
| ScanController.CleanIdempotent | server/src/controllers/scanController.js:17 | cleaning twice equals cleaning once, and never adds UTF-16 units |
| ScanController.AcceptedIsClean | server/src/controllers/scanController.js:14-18 | an accepted payload is non-empty text of at most 2048 units, without controls or outer whitespace, and unchanged by cleaning |
| ScanController.Actor | server/src/controllers/scanController.js:54 | "User:" and the id for a signed-in user; else a truthy client IP; else "ANONYMOUS" |
| ScanController.Audit | server/src/controllers/scanController.js:48-59 | for a scan that reaches the audit step (a valid parse, see `Persist`), a record is built iff the verdict is DANGER or SCAM; it carries that verdict, the payload's MD5, the parser's type and the actor |
| ScanController.Entry | server/src/controllers/scanController.js:34-43 | the `new ScanResult` call gives the parser's type, the engine's verdict and score, the cleaned payload, the parse's data (absent only for a parse that never reaches this call, see `Persist`), and empty flags |
| ScanController.Persist | server/src/controllers/scanController.js:27-59 | something is written iff the parse is valid, since `generateExplanation` throws first otherwise; then the entry stores the parse's data and an explanation starting with the opening words, and an audit record is written iff the verdict is DANGER or SCAM |
| ScanController.ParamOr | server/src/controllers/scanController.js:94-95 | `parseInt(x)` or else `d` gives the parsed value unless it is NaN or 0, otherwise the fallback |
| ScanController.CeilDiv | server/src/controllers/scanController.js:122 | `Math.ceil(a / b)`: the integer q with (q-1)b < a <= qb for positive b, and the mirrored bounds for negative b |
| ScanController.Paginate | server/src/controllers/scanController.js:94-122 | page defaults to 1, limit to 20, skip is (page-1) times limit, the limit is never 0, and totalPages is the count divided by the limit rounded up |
| ScanController.PagesCoverHistory | server/src/controllers/scanController.js:122 | with a positive limit, the last page starts inside a non-empty history and the page after it starts past its end |
| ScanController.AccessRules | server/src/controllers/scanController.js:136 | an unowned scan is open to all; an owned scan only to the requester with the owner's id |
| Pipeline.AuditIffHighScore | server/src/controllers/scanController.js:20-59 | the layered engine's verdict calls for an audit iff the capped score is at least 80, since that engine never says SCAM; a scan is audited iff its parse is valid and that score is at least 80 |
| Pipeline.DigitsRouteToGeneral | server/src/utils/parsers.js:86-91 | a non-empty digit string goes to the general parser |
| Pipeline.ProductTypesDisagree | server/src/engine/ScamDeductionEngineV4.js:40 | 12 to 14 digits are PRODUCT for the engine, but the parser's type, which is stored and returned, is "product" only for 13 digits and "TEXT" for 12 or 14 |
| Pipeline.BarcodeAdviceIsGeneric | client/src/utils/verdictHumanizer.js:24-30 | the parser never tags "PRODUCT", so a barcode gets the same advice as text in every tier |
| Pipeline.KeywordFindingUnchanged | client/src/utils/verdictHumanizer.js:64-66 | "Suspicious keyword: " followed by lower-case letters and spaces is not rewritten |
| Pipeline.KeywordFindingsShownUnchanged | server/src/utils/deductionEngine.js:108 | every legacy keyword finding would pass the client's rewrite unchanged (lower-case "keyword"); the controller uses the layered engine, so no modelled path feeds these findings to the client |
| Common.OrNull | server/src/utils/parsers.js:21 | `s` or else null is present iff `s` is truthy, and is then `s` |
| Common.OrElse | server/src/utils/parsers.js:25 | `s` or else `d` is `s` when truthy and `d` otherwise |
| Strings.ReplaceFirst | server/src/utils/parsers.js:46 | `replace` with a string pattern changes only the first occurrence, and nothing when the pattern is absent |
| Strings.Split | server/src/utils/deductionEngine.js:47 | `split` with one character gives at least one part, none containing the separator |
| Strings.JoinSplit | server/src/utils/deductionEngine.js:47 | joining the parts with the separator gives back the string |
| Strings.Trim | server/src/controllers/scanController.js:17 | the trimmed text is a slice of the input with only JavaScript whitespace cut off at either end, and it neither starts nor ends with JavaScript whitespace |
| Strings.TrimIdempotent | server/src/controllers/scanController.js:17 | trimming twice equals trimming once |
| Strings.Utf16Length | server/src/controllers/scanController.js:15 | `length` counts between one and two UTF-16 units per character |
| Strings.Take | server/src/utils/parsers.js:78 | `substring(0, n)` is a prefix of length min(n, length) |
| Strings.IntToStringInjective | server/src/utils/verdictGenerator.js:24 | distinct integer scores are printed differently |

## Left out

- The seven layer modules behind the deduction engine are not part of this model. They are
  pure function parameters, so a layer's timing, its I/O and its exceptions are not modelled.
- WHATWG URL parsing, `URLSearchParams`, `parseFloat`, printing a non-integer number and MD5
  are abstract parameters (`Platform.Runtime`). `parseInt` is given as its result, with
  `None` for NaN.
- Asynchrony, the database, the audit log, HTTP statuses other than the three rejections,
  console logging and the try/catch around persistence are not modelled. A thrown exception
  is `None` where the modelled code would throw.
- The response built at scanController.js:63-80 is not modelled. Neither is the JSON
  parsing of stored explanations at scanController.js:65, 109 and 142.
  `Explanation.PlainSentence` shows that the generated explanation starts with 'W'. No JSON
  text starts with 'W', so line 65 throws and the request ends in the catch block at lines
  82-85.
- History retrieval, sorting and the per-entry explanation mapping (scanController.js:98-117)
  are not modelled; only the pagination arithmetic is. The 401 and 404 early returns
  (lines 90-92, 135) are not modelled either. `analyzeDomain` and `checkBlacklist` are
  placeholders and are left out.
- Strings.ToLower: maps ASCII capitals, the Kelvin sign and capital I with dot above only.
  Other characters are kept as they are, not lower-cased as Unicode says.
- Strings.Take: counts Unicode scalar values, while `substring` counts UTF-16 units. A
  preview with characters above U+FFFF can differ, and JavaScript may split a surrogate pair.
  Lone surrogates cannot be represented.
- Strings.IntToString: prints integers only. The model takes layer scores as integers, so the
  non-integer and exponent forms JavaScript prints are not covered.
- ScanController.Entry and ScanController.Audit: each describes its call on any parse, but
  `analyzeScan` reaches lines 34-59 only for a valid parse, because `generateExplanation` at
  line 27 throws first for a null or invalid one (`Explanation.GenerateExplanation` gives
  `None`). `ScanController.Persist` and `Pipeline.AuditIffHighScore` state what is written.
- Parsers.PayloadDispatch and Parsers.UpiOutcomes: the null result of `parseUPI` is reachable
  in the model only because URL parsing is abstract. Real WHATWG parsing gives a `upi://`
  string the protocol `upi:`, so `parsePayload` never returns null there.
- Parsers.FromEntries: a `__proto__` key is treated as an ordinary key. JavaScript's plain
  object assignment treats it specially.
- Humanizer.AdviceByType: does not state that the descriptions and actions of the different
  types differ. That fact about the long literals is too costly for the verifier here.
- Humanizer.RewriteOne: covers only a finding that holds the first phrase and neither 'I' nor
  'K'. `Humanizer.RewriteKeeps` and `Humanizer.SignalRules` cover the other findings only
  through `Rewrite` itself.
- LegacyEngine.AnalyzeText: takes the keyword list as a parameter. `Analyze` passes the
  engine's list, which stands for the `suspiciousKeywords` field set in the constructor.
- The legacy `pn` parameter (deductionEngine.js:50) is read but never used, so it is not
  modelled.

## Findings

| source | as written | input that shows it | evidently intended | confidence | as-written member | corrected member |
|---|---|---|---|---|---|---|
| server/src/engine/ScamDeductionEngineV4.js:97-105 | the threshold ladder assigns the verdict unconditionally, overwriting the DANGER/WARN set by the product override (76-77) and the reputation override (88-90) | the 13-digit barcode 4006381333931, with product score 60 and every other layer 0: the override sets DANGER, and the result is WARN | the override is meant to stick: the assignments at lines 76-77 and 88-90 would be dead code otherwise, so the result should be the more severe of the ladder's verdict and the override's | medium, not executed | Engine.OverrideDiscardedExample | Engine.IntendedVerdict |
| server/src/utils/deductionEngine.js:38-40 | the final ladder overwrites the DANGER that `analyzeText` sets for three or more keywords (116-118) | the text "urgent: winner, call your bank", which matches exactly three keywords and scores 60: `analyzeText` sets DANGER, and the result is WARN | three or more keywords give DANGER: the assignment at line 117, marked as an override, would be dead code otherwise | medium, not executed | LegacyEngine.KeywordOverrideLost | LegacyEngine.IntendedAnalysis |

Both findings keep the analysis as written for the rest of the pipeline, because the
controller stores the verdict that code returns. The corrected members give the intended
verdict and its properties: `Engine.IntendedVerdict` with `Engine.OverrideLostIff`, and
`LegacyEngine.IntendedAnalysis` with `LegacyEngine.IntendedVerdictRules`.
