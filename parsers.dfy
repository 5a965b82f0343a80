/** The payload parser (server/src/utils/parsers.js): structured data for the explanation and
    for persistence. */
module Parsers {
  import opened Common
  import opened Strings
  import opened Platform

  /** The `type` tag of a parse result. */
  datatype PayloadKind = UpiKind | UrlKind | ProductKind | TextKind {
    /** The tag as the parser writes it; note the lower-case product tag. */
    function TypeName(): string {
      match this
      case UpiKind => "UPI"
      case UrlKind => "URL"
      case ProductKind => "product"
      case TextKind => "TEXT"
    }
  }

  /** The `data` part of a successful parse. */
  datatype PayloadData =
    | UpiData(vpa: Option<string>, payeeName: Option<string>, amount: Option<Number>,
              transactionNote: Option<string>, currency: string)
    | UrlData(protocol: string, domain: string, path: string, params: map<string, string>)
    | ProductData(format: string, prefix: string)
    | TextData(preview: string)
  {
    function Kind(): PayloadKind {
      match this
      case UpiData(_, _, _, _, _) => UpiKind
      case UrlData(_, _, _, _) => UrlKind
      case ProductData(_, _) => ProductKind
      case TextData(_) => TextKind
    }
  }

  /** `{type, valid: true, data}` or `{type, valid: false, error}`; an invalid result has no data. */
  datatype Parsed = Ok(data: PayloadData) | Invalid(kind: PayloadKind, error: string) {
    function Type(): string {
      match this
      case Ok(d) => d.Kind().TypeName()
      case Invalid(k, _) => k.TypeName()
    }
  }

  // ---------------------------------------------------------------------------------------
  // Parameter dictionaries

  /** Storing each pair in a dictionary in order (`params[key] = value`, `Object.fromEntries`). */
  function FromEntries(pairs: seq<(string, string)>): map<string, string> {
    if pairs == [] then map[]
    else FromEntries(pairs[..|pairs| - 1])[pairs[|pairs| - 1].0 := pairs[|pairs| - 1].1]
  }

  /** A key is in the dictionary iff some pair has it, and its value is that of the last such pair. */
  lemma {:induction false} FromEntriesLastWins(pairs: seq<(string, string)>, key: string)
    ensures key in FromEntries(pairs) <==> exists i :: 0 <= i < |pairs| && pairs[i].0 == key
    ensures key in FromEntries(pairs) ==>
      exists i :: 0 <= i < |pairs| && pairs[i] == (key, FromEntries(pairs)[key])
                  && forall j :: i < j < |pairs| ==> pairs[j].0 != key
    decreases |pairs|
  {
    if pairs != [] {
      var init, last := pairs[..|pairs| - 1], pairs[|pairs| - 1];
      FromEntriesLastWins(init, key);
      if last.0 != key && key in FromEntries(init) {
        var i :| 0 <= i < |init| && init[i] == (key, FromEntries(init)[key])
                 && forall j :: i < j < |init| ==> init[j].0 != key;
        assert pairs[i] == init[i];
      }
      if key in FromEntries(pairs) && !(exists i :: 0 <= i < |init| && init[i].0 == key) {
        assert pairs[|pairs| - 1].0 == key;
      }
      if exists i :: 0 <= i < |pairs| && pairs[i].0 == key {
        var i :| 0 <= i < |pairs| && pairs[i].0 == key;
        if i < |init| { assert init[i].0 == key; }
      }
    }
  }

  /** The value stored under `key`, if any (`params[key]`, undefined when absent). */
  function Lookup(params: map<string, string>, key: string): (r: Option<string>)
    ensures r.Some? <==> key in params
    ensures r.Some? ==> r.value == params[key]
  {
    if key in params then Some(params[key]) else None
  }

  // ---------------------------------------------------------------------------------------
  // parseUPI

  /** The `data` of a UPI payment request, from its query dictionary. */
  function UpiFields(params: map<string, string>, rt: Runtime): PayloadData {
    var am := Lookup(params, "am");
    UpiData(OrNull(Lookup(params, "pa")),
            OrNull(Lookup(params, "pn")),
            if Truthy(am) then Some(rt.parseFloat(am.value)) else None,
            OrNull(Lookup(params, "tn")),
            OrElse(Lookup(params, "cu"), "INR"))
  }

  /** What `parseUPI` returns; `None` is its `null`, for a URL whose scheme is not `upi:`. */
  function UpiResult(payload: string, rt: Runtime): Option<Parsed> {
    match rt.parseUrl(payload)
    case None => Some(Invalid(UpiKind, "Malformed UPI URI"))
    case Some(u) =>
      if u.protocol != "upi:" then None
      else Some(Ok(UpiFields(FromEntries(u.searchParams), rt)))
  }

  /** `parseUPI(payload)`: copies the query parameters into a dictionary one by one, then reads
      the payment fields from it. */
  method ParseUpi(payload: string, rt: Runtime) returns (r: Option<Parsed>)
    ensures r == UpiResult(payload, rt)
  {
    var parsed := rt.parseUrl(payload);
    if parsed.None? {
      return Some(Invalid(UpiKind, "Malformed UPI URI"));
    }
    var urlObj := parsed.value;
    if urlObj.protocol != "upi:" {
      return None;
    }
    var entries := urlObj.searchParams;
    var params: map<string, string> := map[];
    var i := 0;
    while i < |entries|
      invariant 0 <= i <= |entries|
      invariant params == FromEntries(entries[..i])
    {
      var (key, value) := entries[i];
      assert entries[..i + 1][..i] == entries[..i];
      params := params[key := value];
      i := i + 1;
    }
    assert entries[..i] == entries;
    var amount: Option<Number> := None;
    if "am" in params && params["am"] != "" {
      amount := Some(rt.parseFloat(params["am"]));
    }
    var vpa := if "pa" in params && params["pa"] != "" then Some(params["pa"]) else None;
    var payeeName := if "pn" in params && params["pn"] != "" then Some(params["pn"]) else None;
    var transactionNote := if "tn" in params && params["tn"] != "" then Some(params["tn"]) else None;
    var currency := if "cu" in params && params["cu"] != "" then params["cu"] else "INR";
    r := Some(Ok(UpiData(vpa, payeeName, amount, transactionNote, currency)));
  }

  /** The outcomes of `parseUPI`: a parse failure is the only invalid result, a non-`upi:` scheme
      the only null, and every field follows the parameter that was given last. */
  lemma UpiOutcomes(payload: string, rt: Runtime)
    ensures UpiResult(payload, rt) == Some(Invalid(UpiKind, "Malformed UPI URI")) <==> rt.parseUrl(payload).None?
    ensures UpiResult(payload, rt).None? <==> rt.parseUrl(payload).Some? && rt.parseUrl(payload).value.protocol != "upi:"
    ensures UpiResult(payload, rt).Some? && UpiResult(payload, rt).value.Ok? ==>
      UpiResult(payload, rt).value.data.UpiData? && UpiResult(payload, rt).value.Type() == "UPI"
  {
  }

  /** Defaults: a missing or empty `pa`, `pn` or `tn` gives null, and a missing or empty `cu`
      gives "INR"; a present non-empty value is kept. The amount is parsed iff `am` is non-empty. */
  lemma UpiDefaults(params: map<string, string>, rt: Runtime)
    ensures var d := UpiFields(params, rt);
      (d.vpa.None? <==> "pa" !in params || params["pa"] == "") &&
      (d.vpa.Some? ==> d.vpa.value == params["pa"]) &&
      (d.payeeName.None? <==> "pn" !in params || params["pn"] == "") &&
      (d.payeeName.Some? ==> d.payeeName.value == params["pn"]) &&
      (d.transactionNote.None? <==> "tn" !in params || params["tn"] == "") &&
      (d.transactionNote.Some? ==> d.transactionNote.value == params["tn"]) &&
      (d.currency == "INR" <==> "cu" !in params || params["cu"] in {"", "INR"}) &&
      ("cu" in params && params["cu"] != "" ==> d.currency == params["cu"]) &&
      (d.amount.Some? <==> "am" in params && params["am"] != "") &&
      (d.amount.Some? ==> d.amount.value == rt.parseFloat(params["am"]))
  {
  }

  /** With a repeated parameter, the payee address is the one given last. */
  lemma UpiLastPayeeWins(entries: seq<(string, string)>, rt: Runtime)
    ensures var vpa := UpiFields(FromEntries(entries), rt).vpa;
      vpa.Some? ==> exists i :: 0 <= i < |entries| && entries[i] == ("pa", vpa.value)
                               && forall j :: i < j < |entries| ==> entries[j].0 != "pa"
  {
    FromEntriesLastWins(entries, "pa");
  }

  // ---------------------------------------------------------------------------------------
  // parseURL

  /** The text handed to the URL parser: `http://` is added unless the payload starts with `http`. */
  function UrlString(payload: string): (s: string)
    ensures StartsWith(payload, "http") ==> s == payload
    ensures !StartsWith(payload, "http") ==> s == "http://" + payload
  {
    if StartsWith(payload, "http") then payload else "http://" + payload
  }

  /** `parseURL(payload)`. */
  function ParseUrl(payload: string, rt: Runtime): (r: Parsed)
    ensures r.Type() == "URL"
    ensures r.Invalid? <==> rt.parseUrl(UrlString(payload)).None?
    ensures r.Invalid? ==> r == Invalid(UrlKind, "Invalid URL")
  {
    match rt.parseUrl(UrlString(payload))
    case None => Invalid(UrlKind, "Invalid URL")
    case Some(u) =>
      Ok(UrlData(ReplaceFirst(u.protocol, ":", ""), u.hostname, u.pathname, FromEntries(u.searchParams)))
  }

  /** The reported protocol is the scheme without its colon, and every field comes from the
      parsed URL, none from the payload text. */
  lemma UrlFields(payload: string, rt: Runtime, scheme: string)
    requires rt.parseUrl(UrlString(payload)).Some?
    requires rt.parseUrl(UrlString(payload)).value.protocol == scheme + ":" && ':' !in scheme
    ensures var u := rt.parseUrl(UrlString(payload)).value;
      ParseUrl(payload, rt) == Ok(UrlData(scheme, u.hostname, u.pathname, FromEntries(u.searchParams)))
  {
    var p := scheme + ":";
    assert OccursAt(p, ":", |scheme|);
    forall k | 0 <= k < |scheme|
      ensures !OccursAt(p, ":", k)
    {
      assert p[k..k + 1][0] == scheme[k];
    }
    assert IndexOf(p, ":") == Some(|scheme|);
    assert p[..|scheme|] == scheme;
  }

  // ---------------------------------------------------------------------------------------
  // parseGeneral

  /** `/^\d{13}$/`. */
  predicate IsEan13(s: string) {
    |s| == 13 && AllDigits(s)
  }

  /** `parseGeneral(payload)`. */
  function ParseGeneral(payload: string): (r: Parsed)
    ensures r.Ok?
    ensures r.Type() == "product" <==> IsEan13(payload)
    ensures r.Type() == "product" ==> r.data == ProductData("EAN-13", payload[..3])
    ensures r.Type() != "product" ==>
      r.Type() == "TEXT" && r.data.TextData? && r.data.preview <= payload && |r.data.preview| == Min(50, |payload|)
  {
    if IsEan13(payload) then Ok(ProductData("EAN-13", Take(payload, 3)))
    else Ok(TextData(Take(payload, 50)))
  }

  // ---------------------------------------------------------------------------------------
  // parsePayload

  /** The routing test for `parseURL`: an `http` prefix, or a dot and no space character. */
  predicate UrlLike(payload: string) {
    StartsWith(payload, "http") || (Contains(payload, ".") && !Contains(payload, " "))
  }

  /** What `parsePayload` returns. */
  function PayloadResult(payload: string, rt: Runtime): Option<Parsed> {
    if StartsWith(payload, "upi://") then UpiResult(payload, rt)
    else if UrlLike(payload) then Some(ParseUrl(payload, rt))
    else Some(ParseGeneral(payload))
  }

  /** `parsePayload(payload)`. */
  method ParsePayload(payload: string, rt: Runtime) returns (r: Option<Parsed>)
    ensures r == PayloadResult(payload, rt)
  {
    if StartsWith(payload, "upi://") {
      r := ParseUpi(payload, rt);
    } else if StartsWith(payload, "http") || (Contains(payload, ".") && !Contains(payload, " ")) {
      r := Some(ParseUrl(payload, rt));
    } else {
      r := Some(ParseGeneral(payload));
    }
  }

  /** The dispatch order of `parsePayload`: the tag is decided by the payload text alone, only a
      UPI payload can give null, and only UPI and URL payloads can be invalid. */
  lemma PayloadDispatch(payload: string, rt: Runtime)
    ensures PayloadResult(payload, rt).None? ==> StartsWith(payload, "upi://")
    ensures PayloadResult(payload, rt).Some? ==>
      var t := PayloadResult(payload, rt).value.Type();
      (t == "UPI" <==> StartsWith(payload, "upi://")) &&
      (t == "URL" <==> !StartsWith(payload, "upi://") && UrlLike(payload)) &&
      (t == "product" <==> !StartsWith(payload, "upi://") && !UrlLike(payload) && IsEan13(payload)) &&
      (t == "TEXT" <==> !StartsWith(payload, "upi://") && !UrlLike(payload) && !IsEan13(payload))
    ensures PayloadResult(payload, rt).Some? && PayloadResult(payload, rt).value.Invalid? ==>
      PayloadResult(payload, rt).value.Type() in {"UPI", "URL"}
  {
    assert "upi://"[..4] == "upi:";
    if StartsWith(payload, "upi://") {
      assert !StartsWith(payload, "http") by { assert payload[0] == 'u'; }
    }
  }
}
