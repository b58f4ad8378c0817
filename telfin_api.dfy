/**
 * The Telphin client in main.py: interpreting the token answer of the OAuth
 * exchange, unwrapping the call list from the three envelope shapes the
 * provider may answer with, and the early exits of the test driver `main`.
 * Every HTTP exchange is an oracle: its outcome is a `Response` parameter.
 */
module TelfinApi {
  import opened Wrappers
  import opened JsonValues

  /**
   * `authenticate_telfin`: the bearer token if the decoded answer is a dict
   * whose `access_token` is truthy; `None` for a missing or falsy token, for
   * an answer that is not a dict (`.get` raises, and the handler swallows it)
   * and for any transport, status or decoding failure.
   */
  function AuthenticateTelfin(response: Response): (token: Option<Json>)
    ensures token.Some? <==>
      && response.Decoded?
      && response.body.JObj?
      && "access_token" in response.body.fields
      && Truthy(response.body.fields["access_token"])
    ensures token.Some? ==> token.value == response.body.fields["access_token"]
  {
    match response
    case Failed(_) => None
    case Decoded(body) =>
      if !body.JObj? then None
      else
        var got := if "access_token" in body.fields then body.fields["access_token"] else JNull;
        if Truthy(got) then Some(got) else None
  }

  /**
   * The value under an envelope key, once the success message has taken its
   * `len()`: a value without a length makes that `print` raise `TypeError`,
   * which the generic handler turns into `None`.
   */
  function Counted(v: Json): (r: Option<Json>)
    ensures r.Some? <==> HasLen(v)
    ensures r.Some? ==> r.value == v
  {
    if HasLen(v) then Some(v) else None
  }

  /**
   * `get_recent_calls`, after the request: a dict with `calls` yields that
   * value, else a bare list yields itself, else a dict with `results` yields
   * that value, and anything else (or any failure) yields `None`.
   */
  function GetRecentCalls(response: Response): (calls: Option<Json>)
    ensures response.Failed? ==> calls.None?
    ensures calls.Some? ==> HasLen(calls.value)
    ensures calls.Some? ==>
      || (response.body.JObj? && "calls" in response.body.fields
          && calls.value == response.body.fields["calls"])
      || (response.body.JList? && calls.value == response.body)
      || (response.body.JObj? && "calls" !in response.body.fields
          && "results" in response.body.fields
          && calls.value == response.body.fields["results"])
    ensures calls.None? <==>
      || response.Failed?
      || (!response.body.JObj? && !response.body.JList?)
      || (response.body.JObj? && "calls" in response.body.fields
          && !HasLen(response.body.fields["calls"]))
      || (response.body.JObj? && "calls" !in response.body.fields
          && ("results" in response.body.fields ==> !HasLen(response.body.fields["results"])))
  {
    match response
    case Failed(_) => None
    case Decoded(body) =>
      if body.JObj? && "calls" in body.fields then Counted(body.fields["calls"])
      else if body.JList? then Some(body)
      else if body.JObj? && "results" in body.fields then Counted(body.fields["results"])
      else None
  }

  /** The three envelope shapes the provider may answer with. */
  datatype Envelope = CallsKey | BareList | ResultsKey

  /**
   * A call list as the provider would send it in the given shape; `extra`
   * holds any other top-level keys of a dict envelope.
   */
  function Wrap(shape: Envelope, calls: seq<Json>, extra: map<string, Json>): (body: Json)
    ensures shape == BareList ==> body == JList(calls)
    ensures shape != BareList ==> body.JObj? && extra.Keys <= body.fields.Keys
  {
    match shape
    case CallsKey => JObj(extra["calls" := JList(calls)])
    case BareList => JList(calls)
    case ResultsKey => JObj(extra["results" := JList(calls)])
  }

  /**
   * Round trip: whichever accepted shape a list arrives in, the same list,
   * element for element and in order, comes back. A `results` envelope works
   * only when no stray `calls` key shadows it.
   */
  lemma UnwrapWrapped(shape: Envelope, calls: seq<Json>, extra: map<string, Json>)
    requires shape == ResultsKey ==> "calls" !in extra
    ensures GetRecentCalls(Decoded(Wrap(shape, calls, extra))) == Some(JList(calls))
  {
  }

  /**
   * Precedence: when both keys are present only the value under `calls` is
   * looked at; `results` is no fallback, even when `calls` holds a value
   * without a length and the answer is `None`.
   */
  lemma CallsKeyWins(fields: map<string, Json>, other: Json)
    requires "calls" in fields && "results" in fields
    ensures GetRecentCalls(Decoded(JObj(fields))) == Counted(fields["calls"])
    ensures GetRecentCalls(Decoded(JObj(fields["results" := other]))) == GetRecentCalls(Decoded(JObj(fields)))
  {
  }

  /** `{"calls": null, "results": [1]}` gives `None`: the `TypeError` from `len(None)` wins over `results`. */
  lemma NullCallsDoNotFallBack()
    ensures GetRecentCalls(Decoded(JObj(map["calls" := JNull, "results" := JList([JInt(1)])]))) == None
  {
  }

  /** A dict with neither key, or a scalar answer, is rejected however it is filled. */
  lemma UnrecognisedShapeRejected(body: Json)
    requires body.JObj? ==> "calls" !in body.fields && "results" !in body.fields
    requires !body.JList?
    ensures GetRecentCalls(Decoded(body)) == None
  {
  }

  /** Python's non-empty test on the configuration strings (`not hostname` is true for `None` and `""`). */
  predicate Present(setting: Option<string>) {
    setting.Some? && setting.value != ""
  }

  /** How far the test driver `main` got. */
  datatype Stage =
    | MissingCredentials
    | AuthFailed
    | CallsUnavailable
      /** The run completed: `total` is `len(calls)`, `shown` the calls whose details were printed. */
    | Completed(total: nat, shown: seq<Json>)
      /** An exception escaped `main` while it printed the first calls. */
    | Crashed

  function Min(a: nat, b: nat): nat {
    if a <= b then a else b
  }

  /** All of the (at most three) calls `main` prints are dicts, so `call.get(...)` succeeds on each. */
  predicate PrintableHead(items: seq<Json>) {
    forall i :: 0 <= i < Min(3, |items|) ==> items[i].JObj?
  }

  /**
   * Printing the call list: an empty list prints nothing; a non-empty list
   * prints its first three calls; slicing a non-empty dict, or calling
   * `.get` on a character or on a list element that is not a dict, raises.
   */
  function Report(calls: Json): (stage: Stage)
    requires HasLen(calls)
    ensures stage.Completed? || stage == Crashed
    ensures stage.Completed? <==> !Truthy(calls) || (calls.JList? && PrintableHead(calls.items))
    ensures stage.Completed? ==> stage.total == Len(calls) && |stage.shown| == Min(3, stage.total)
    ensures stage.Completed? && calls.JList? ==> stage.shown == calls.items[..|stage.shown|]
  {
    if !Truthy(calls) then Completed(Len(calls), [])
    else if calls.JList? && PrintableHead(calls.items) then
      Completed(|calls.items|, calls.items[..Min(3, |calls.items|)])
    else Crashed
  }

  /**
   * `main`: stop on missing credentials, then on a missing token, then on a
   * call list that could not be obtained; otherwise report the list.
   */
  function Main(hostname: Option<string>, login: Option<string>, password: Option<string>,
                authResponse: Response, callsResponse: Response): (stage: Stage)
    ensures stage == MissingCredentials <==> !(Present(hostname) && Present(login) && Present(password))
    ensures stage == AuthFailed <==>
      Present(hostname) && Present(login) && Present(password) && AuthenticateTelfin(authResponse).None?
    ensures stage == CallsUnavailable <==>
      && Present(hostname) && Present(login) && Present(password)
      && AuthenticateTelfin(authResponse).Some? && GetRecentCalls(callsResponse).None?
    ensures stage.Completed? || stage == Crashed ==>
      GetRecentCalls(callsResponse).Some? && stage == Report(GetRecentCalls(callsResponse).value)
    ensures stage.Completed? ==> |stage.shown| <= 3
  {
    if !Present(hostname) || !Present(login) || !Present(password) then MissingCredentials
    else
      var token := AuthenticateTelfin(authResponse);
      if token.None? then AuthFailed
      else
        var calls := GetRecentCalls(callsResponse);
        if calls.None? then CallsUnavailable
        else Report(calls.value)
  }

  /** Without all three credentials no request is made: neither answer can affect the outcome. */
  lemma NoRequestsWithoutCredentials(hostname: Option<string>, login: Option<string>, password: Option<string>,
                                     auth1: Response, calls1: Response, auth2: Response, calls2: Response)
    requires !(Present(hostname) && Present(login) && Present(password))
    ensures Main(hostname, login, password, auth1, calls1) == Main(hostname, login, password, auth2, calls2)
  {
  }

  /** Without a token the calls are never fetched: the calls answer cannot affect the outcome. */
  lemma NoCallFetchWithoutToken(hostname: Option<string>, login: Option<string>, password: Option<string>,
                                auth: Response, calls1: Response, calls2: Response)
    requires AuthenticateTelfin(auth).None?
    ensures Main(hostname, login, password, auth, calls1) == Main(hostname, login, password, auth, calls2)
  {
  }
}
