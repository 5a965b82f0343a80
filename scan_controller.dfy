/** The decision rules of the scan endpoints (server/src/controllers/scanController.js): input
    hardening, audit gating, pagination arithmetic and the ownership check. The database, the
    HTTP plumbing and the hashing are not part of this model. */
module ScanController {
  import opened Common
  import opened Strings
  import opened Classification
  import opened Platform
  import opened Parsers
  import opened Engine
  import opened Explanation

  // ---------------------------------------------------------------------------------------
  // Input hardening

  /** The three ways `analyzeScan` turns a payload away. */
  datatype Rejection = InvalidPayload | PayloadTooLarge | EmptyPayload {
    function Status(): int {
      match this
      case InvalidPayload => 400
      case PayloadTooLarge => 413
      case EmptyPayload => 400
    }
    function Code(): string {
      match this
      case InvalidPayload => "INVALID_PAYLOAD"
      case PayloadTooLarge => "PAYLOAD_TOO_LARGE"
      case EmptyPayload => "EMPTY_PAYLOAD"
    }
  }

  datatype Admission = Accepted(clean: string) | Rejected(reason: Rejection)

  /** The C0 controls, DELETE and the C1 controls: `[\x00-\x1F\x7F-\x9F]`. */
  predicate IsControl(c: char) {
    c <= '\U{001F}' || ('\U{007F}' <= c <= '\U{009F}')
  }

  /** `s.replace(/[\x00-\x1F\x7F-\x9F]/g, "")`. */
  function StripControl(s: string): (t: string)
    ensures |t| <= |s|
    ensures forall k :: 0 <= k < |t| ==> !IsControl(t[k])
  {
    if s == [] then []
    else (if IsControl(s[0]) then [] else [s[0]]) + StripControl(s[1..])
  }

  /** The cleaned payload: control characters removed, then whitespace trimmed. */
  function Clean(payload: string): string {
    Trim(StripControl(payload))
  }

  /** Lines 14-18 of `analyzeScan`; `None` is a body value that is not a string. */
  function Admit(payload: Option<string>): Admission {
    if payload.None? || payload.value == "" then Rejected(InvalidPayload)
    else if Utf16Length(payload.value) > 2048 then Rejected(PayloadTooLarge)
    else if Clean(payload.value) == "" then Rejected(EmptyPayload)
    else Accepted(Clean(payload.value))
  }

  /** The rejections, in the order they are checked: the length limit applies to the raw
      payload, before anything is stripped. */
  lemma AdmitRules(payload: Option<string>)
    ensures Admit(payload) == Rejected(InvalidPayload) <==> payload.None? || payload.value == ""
    ensures Admit(payload) == Rejected(PayloadTooLarge) <==>
      payload.Some? && payload.value != "" && Utf16Length(payload.value) > 2048
    ensures Admit(payload) == Rejected(EmptyPayload) <==>
      payload.Some? && payload.value != "" && Utf16Length(payload.value) <= 2048 && Clean(payload.value) == ""
  {
  }

  /** Stripping a string without control characters changes nothing. */
  lemma {:induction false} StripControlKeeps(s: string)
    requires forall k :: 0 <= k < |s| ==> !IsControl(s[k])
    ensures StripControl(s) == s
    decreases |s|
  {
    if s != [] {
      StripControlKeeps(s[1..]);
    }
  }

  /** Stripping never makes a string longer in code units. */
  lemma {:induction false} StripControlUtf16(s: string)
    ensures Utf16Length(StripControl(s)) <= Utf16Length(s)
    decreases |s|
  {
    if s != [] {
      StripControlUtf16(s[1..]);
      var head := if IsControl(s[0]) then [] else [s[0]];
      Utf16LengthAppend(head, StripControl(s[1..]));
      Utf16LengthAppend([s[0]], s[1..]);
      assert s == [s[0]] + s[1..];
    }
  }

  /** The cleaned text has no control characters. */
  lemma CleanHasNoControl(s: string)
    ensures forall k :: 0 <= k < |Clean(s)| ==> !IsControl(Clean(s)[k])
  {
    var m := StripControl(s);
    forall k | 0 <= k < |Clean(s)|
      ensures !IsControl(Clean(s)[k])
    {
      TrimChars(m, Clean(s)[k]);
    }
  }

  /** Cleaning is idempotent and never lengthens the text in code units. */
  lemma CleanIdempotent(s: string)
    ensures Clean(Clean(s)) == Clean(s)
    ensures Utf16Length(Clean(s)) <= Utf16Length(s)
  {
    var m := StripControl(s);
    CleanHasNoControl(s);
    StripControlKeeps(Clean(s));
    TrimIdempotent(m);
    StripControlUtf16(s);
    Utf16LengthTrim(m);
  }

  /** Text the analysis may receive: no control characters, no whitespace at either end,
      between 1 and 2048 code units, and unchanged by cleaning. */
  predicate IsCleanPayload(c: string) {
    && (forall k :: 0 <= k < |c| ==> !IsControl(c[k]))
    && c != [] && !IsJsWhitespace(c[0]) && !IsJsWhitespace(c[|c| - 1])
    && Utf16Length(c) <= 2048
    && Clean(c) == c
  }

  /** Every accepted payload is clean in that sense. */
  lemma AcceptedIsClean(payload: Option<string>)
    requires Admit(payload).Accepted?
    ensures IsCleanPayload(Admit(payload).clean)
  {
    var s := payload.value;
    assert Admit(payload).clean == Clean(s) && Clean(s) != [] && Utf16Length(s) <= 2048;
    CleanHasNoControl(s);
    CleanIdempotent(s);
  }

  // ---------------------------------------------------------------------------------------
  // Audit logging

  /** The signed-in user, when there is one. */
  datatype User = User(id: string)

  /** An audit record is written for DANGER and SCAM verdicts only. */
  predicate ShouldAudit(verdict: Verdict) {
    verdict == Danger || verdict == Scam
  }

  /** `user ? \`User:${user.id}\` : (clientInfo?.ip || 'ANONYMOUS')`. */
  function Actor(user: Option<User>, clientInfo: Option<ClientInfo>): (a: string)
    ensures user.Some? ==> a == "User:" + user.value.id
    ensures user.None? && clientInfo.Some? && Truthy(clientInfo.value.ip) ==> a == clientInfo.value.ip.value
    ensures user.None? && (clientInfo.None? || !Truthy(clientInfo.value.ip)) ==> a == "ANONYMOUS"
  {
    if user.Some? then "User:" + user.value.id
    else if clientInfo.Some? then OrElse(clientInfo.value.ip, "ANONYMOUS")
    else "ANONYMOUS"
  }

  /** What `AuditLog.create` receives. */
  datatype AuditRecord = AuditRecord(action: string, target: string, verdict: Verdict, actor: string,
                                     riskScore: int, detectedType: string)

  /** The audit record for a high-risk scan, or none. The target is the payload's MD5 digest.
      The controller reaches this decision only for a valid parse (see `Persist`). */
  function Audit(clean: string, analysis: AnalysisResult, parsed: Parsed, user: Option<User>,
                 clientInfo: Option<ClientInfo>, md5Hex: string -> string): (r: Option<AuditRecord>)
    ensures r.Some? <==> ShouldAudit(analysis.verdict)
    ensures r.Some? ==> r.value.verdict == analysis.verdict && r.value.target == md5Hex(clean)
                        && r.value.detectedType == parsed.Type() && r.value.actor == Actor(user, clientInfo)
  {
    if ShouldAudit(analysis.verdict) then
      Some(AuditRecord("SCAN", md5Hex(clean), analysis.verdict, Actor(user, clientInfo), analysis.riskScore, parsed.Type()))
    else None
  }

  // ---------------------------------------------------------------------------------------
  // Persistence

  /** The fields of the stored scan that the rules decide. */
  datatype ScanEntry = ScanEntry(user: Option<string>, payload: string, decodedData: Option<PayloadData>,
                                 detectedType: string, verdict: Verdict, riskScore: int, flags: seq<string>)

  /** The `new ScanResult({...})` call. The engine's result has no `flags`, so the stored list is
      the schema's empty default. The controller reaches this call only for a valid parse (see
      `Persist`); the `decodedData` clause describes the call itself. */
  function Entry(clean: string, parsed: Parsed, analysis: AnalysisResult, user: Option<User>): (e: ScanEntry)
    ensures e.detectedType == parsed.Type() && e.flags == []
    ensures e.verdict == analysis.verdict && e.riskScore == analysis.riskScore && e.payload == clean
    ensures e.decodedData.Some? <==> parsed.Ok?
  {
    ScanEntry(if user.Some? then Some(user.value.id) else None, clean,
              if parsed.Ok? then Some(parsed.data) else None,
              parsed.Type(), analysis.verdict, analysis.riskScore, [])
  }

  /** What one accepted scan writes: the stored entry with its explanation, and the audit
      record when there is one. */
  datatype Writes = Writes(entry: ScanEntry, explanation: string, audit: Option<AuditRecord>)

  /** Lines 27-59 of `analyzeScan`. The explanation comes first; `generateExplanation` throws for a
      null or invalid parse, and the catch at lines 82-85 answers 500 before the entry is saved
      or the audit record written. So nothing is written unless the parse is valid. */
  function Persist(clean: string, parsed: Option<Parsed>, analysis: AnalysisResult, user: Option<User>,
                   clientInfo: Option<ClientInfo>, rt: Runtime): (w: Option<Writes>)
    ensures w.Some? <==> parsed.Some? && parsed.value.Ok?
    ensures w.Some? ==> w.value.entry.decodedData == Some(parsed.value.data)
                        && w.value.entry == Entry(clean, parsed.value, analysis, user)
                        && Opening <= w.value.explanation
    ensures w.Some? ==> (w.value.audit.Some? <==> ShouldAudit(analysis.verdict))
                        && w.value.audit == Audit(clean, analysis, parsed.value, user, clientInfo, rt.md5Hex)
  {
    ExplanationShape(analysis.verdict, analysis.riskScore, parsed, rt);
    match ExplanationText(analysis.verdict, analysis.riskScore, parsed, rt)
    case None => None
    case Some(text) =>
      Some(Writes(Entry(clean, parsed.value, analysis, user), text,
                  Audit(clean, analysis, parsed.value, user, clientInfo, rt.md5Hex)))
  }

  // ---------------------------------------------------------------------------------------
  // History pagination

  /** `parseInt(x) || fallback`: `None` stands for NaN (a missing or unparseable value). */
  function ParamOr(parsed: Option<int>, fallback: int): (v: int)
    ensures v != 0 || fallback == 0
    ensures parsed.Some? && parsed.value != 0 ==> v == parsed.value
    ensures parsed.None? || parsed.value == 0 ==> v == fallback
  {
    if parsed.Some? && parsed.value != 0 then parsed.value else fallback
  }

  /** `Math.ceil(a / b)`. */
  function CeilDiv(a: int, b: int): (q: int)
    requires b != 0
    ensures b > 0 ==> (q - 1) * b < a <= q * b
    ensures b < 0 ==> q * b <= a < (q - 1) * b
  {
    if b > 0 then -((-a) / b) else -(a / (-b))
  }

  datatype Page = Page(page: int, limit: int, skip: int, totalPages: int)

  /** The arithmetic of `getScanHistory`. A negative page or limit is used as it is. */
  function Paginate(pageParam: Option<int>, limitParam: Option<int>, count: nat): (p: Page)
    ensures p.page == ParamOr(pageParam, 1) && p.limit == ParamOr(limitParam, 20)
    ensures p.skip == (p.page - 1) * p.limit
    ensures p.limit != 0 && p.totalPages == CeilDiv(count, p.limit)
  {
    var page := ParamOr(pageParam, 1);
    var limit := ParamOr(limitParam, 20);
    Page(page, limit, (page - 1) * limit, CeilDiv(count, limit))
  }

  /** With a positive limit, the pages 1 .. totalPages are exactly the ones that start inside the
      history: the last one starts before its end and the one after it does not. */
  lemma PagesCoverHistory(limitParam: Option<int>, count: nat)
    requires ParamOr(limitParam, 20) > 0
    ensures var last := Paginate(Some(CeilDiv(count, ParamOr(limitParam, 20))), limitParam, count);
      last.totalPages >= 0 && (count > 0 ==> last.totalPages >= 1 && 0 <= last.skip < count)
    ensures var after := Paginate(Some(CeilDiv(count, ParamOr(limitParam, 20)) + 1), limitParam, count);
      count > 0 ==> after.skip >= count
  {
    var limit := ParamOr(limitParam, 20);
    var n := CeilDiv(count, limit);
    assert (n - 1) * limit < count <= n * limit;
  }

  // ---------------------------------------------------------------------------------------
  // Access to one scan

  /** `result.user && (!req.user || result.user.toString() !== req.user.id)`. */
  predicate DenyAccess(owner: Option<string>, requester: Option<User>) {
    owner.Some? && (requester.None? || owner.value != requester.value.id)
  }

  /** An unowned scan is open to everyone, and an owned one only to its owner. */
  lemma AccessRules(owner: Option<string>, requester: Option<User>)
    ensures owner.None? ==> !DenyAccess(owner, requester)
    ensures owner.Some? ==> (!DenyAccess(owner, requester) <==> requester == Some(User(owner.value)))
  {
  }
}
