/**
 * The browser client of the Apps Script endpoint
 * (js/google-sheets-integration.js): when the integration counts as
 * enabled, the order of its guards, the request body it builds and how
 * every path ends in a `{success, message}` reply.
 *
 * The page protocol (file: or not), the page URL, the clock and the
 * outcome of fetch are parameters. `submitToGoogleSheets` is given twice:
 * `SubmitAsWritten` is the code as it stands, where the body's
 * `const formData` shadows the parameter for the whole `try` block so that
 * the first read of `formData` throws; `SubmitToGoogleSheets` is the
 * evidently intended code, with the body built under another name.
 */
module SheetsClient {
  import opened Common

  const Placeholder: string := "YOUR_GOOGLE_APPS_SCRIPT_WEB_APP_URL_HERE"
  const DeployedUrl: string :=
    "https://script.google.com/macros/s/AKfycbw-Ek1ts79BwTBwpi34duCW_F17pGhUz54TWJ6znbyrsAbLey1CB7DpfymW405-_S66/exec"

  const NotConfigured: string := "Google Sheets integration not configured"
  const Simulated: string := "Simulated submission (local mode)"
  const Saved: string := "Data saved to Google Sheets"
  const NetworkErrorPrefix: string := "Network error: "
  const InvalidInput: string := "Invalid form data provided"
  const HttpErrorPrefix: string := "HTTP error! status: "
  const ConnectionOk: string := "Connection successful"
  const ConnectionFailedPrefix: string := "Connection failed: "

  /** The ReferenceError message of a read of `formData` in its temporal dead zone. */
  const TdzMessage: string := "Cannot access 'formData' before initialization"

  /** `url && url !== placeholder`, the rule of setWebAppUrl. */
  predicate EnabledFor(url: string)
  {
    url != "" && url != Placeholder
  }

  /** A property value of a plain object handed to the client. */
  datatype Field = Value(v: JsVal) | Null | Undefined

  /** What submitToGoogleSheets may be called with. */
  datatype SheetsInput =
    | FormDataInput(entries: seq<(string, string)>)
    | ObjectInput(props: Obj<Field>)
    | NullInput                                      // null, undefined or a primitive

  datatype Reply = Reply(success: bool, message: string)

  /** How the returned promise settles; a rejection is a TypeError escaping the function. */
  datatype Settled = Resolved(reply: Reply) | Rejected

  /** The JSON the endpoint answered with, or the reason response.json() failed. */
  datatype JsonBody = Body(success: bool, message: string) | Unparsable(error: string)

  /** What fetch gives: a network failure, or an HTTP response with its status and body. */
  datatype FetchResult = NetworkFailure(error: string) | HttpResponse(status: nat, body: JsonBody)

  /** How the call settles, and the request body it posted, if it posted one. */
  datatype Attempt = Attempt(settled: Settled, request: Option<seq<(string, string)>>)

  /** response.ok. */
  predicate StatusOk(status: nat)
  {
    200 <= status <= 299
  }

  // ---------------------------------------------------------------------------
  // Building the request body
  // ---------------------------------------------------------------------------

  /** The form entries as object properties, as Object.fromEntries gives them. */
  function EntriesAsFields(es: seq<(string, string)>): seq<(string, Field)>
  {
    seq(|es|, i requires 0 <= i < |es| => (es[i].0, Value(Str(es[i].1))))
  }

  /** `data` once form_type and url are assigned: both override any same-named property. */
  function WithMetadata(data: Obj<Field>, formType: string, href: string): (r: Obj<Field>)
    ensures Get(r, "form_type") == Some(Value(Str(formType)))
    ensures Get(r, "url") == Some(Value(Str(href)))
    ensures forall k :: k != "form_type" && k != "url" ==> Get(r, k) == Get(data, k)
  {
    Set(Set(data, "form_type", Value(Str(formType))), "url", Value(Str(href)))
  }

  /** The entries FormData.append receives: every property whose value is neither null nor undefined, as text. */
  function Kept(props: seq<(string, Field)>): seq<(string, string)>
  {
    if |props| == 0 then []
    else
      var last := props[|props| - 1];
      Kept(props[..|props| - 1]) + (if last.1.Value? then [(last.0, ToText(last.1.v))] else [])
  }

  /** A body entry is exactly a property with a real value, rendered as text. */
  lemma {:induction false} KeptIndex(props: seq<(string, Field)>, k: string, t: string)
    ensures (k, t) in Kept(props) <==>
      exists i :: 0 <= i < |props| && props[i].0 == k && props[i].1.Value? && ToText(props[i].1.v) == t
  {
    if |props| > 0 {
      var n := |props| - 1;
      KeptIndex(props[..n], k, t);
      forall i | 0 <= i < n ensures props[..n][i] == props[i] {
      }
    }
  }

  /** The body keeps the properties' order, so each name still appears once. */
  lemma {:induction false} KeptNamesAreProperties(props: seq<(string, Field)>)
    ensures forall j :: 0 <= j < |Kept(props)| ==> exists i :: 0 <= i < |props| && props[i].0 == Kept(props)[j].0
    ensures UniqueKeys(props) ==> UniqueKeys(Kept(props))
  {
    if |props| > 0 {
      var n := |props| - 1;
      var init := props[..n];
      KeptNamesAreProperties(init);
      var prev := Kept(init);
      var tail := if props[n].1.Value? then [(props[n].0, ToText(props[n].1.v))] else [];
      var r := Kept(props);
      assert r == prev + tail;
      forall j | 0 <= j < |r| ensures exists i :: 0 <= i < |props| && props[i].0 == r[j].0 {
        if j < |prev| {
          var i :| 0 <= i < |init| && init[i].0 == prev[j].0;
          assert r[j] == prev[j];
          assert props[i].0 == r[j].0;
        } else {
          assert r[j] == tail[0];
          assert props[n].0 == r[j].0;
        }
      }
      if UniqueKeys(props) {
        assert UniqueKeys(init) by {
          forall a, b | 0 <= a < b < |init| ensures init[a].0 != init[b].0 {
            assert props[a].0 != props[b].0;
          }
        }
        forall a, b | 0 <= a < b < |r| ensures r[a].0 != r[b].0 {
          if b < |prev| {
            assert r[a] == prev[a] && r[b] == prev[b];
          } else {
            var i :| 0 <= i < |init| && init[i].0 == prev[a].0;
            assert props[i].0 != props[n].0;
          }
        }
      }
    } else {
      assert Kept(props) == [];
    }
  }

  /** The Object.keys(data).forEach loop that appends each real value to a fresh FormData. */
  method BuildBody(data: Obj<Field>) returns (body: seq<(string, string)>)
    ensures body == Kept(data)
  {
    body := [];
    for i := 0 to |data|
      invariant body == Kept(data[..i])
    {
      assert data[..i + 1][..i] == data[..i];
      if data[i].1.Value? {
        body := body + [(data[i].0, ToText(data[i].1.v))];
      }
    }
    assert data[..|data|] == data;
  }

  /** The body posts exactly the non-null properties of the data, each once, form_type and url among them. */
  lemma BodyContents(data: Obj<Field>, formType: string, href: string, k: string, t: string)
    ensures var d := WithMetadata(data, formType, href);
      && ((k, t) in Kept(d) <==> exists v :: Get(d, k) == Some(Value(v)) && t == ToText(v))
      && ("form_type", formType) in Kept(d)
      && ("url", href) in Kept(d)
      && UniqueKeys(Kept(d))
  {
    var d := WithMetadata(data, formType, href);
    KeptIndex(d, k, t);
    KeptNamesAreProperties(d);
    if (k, t) in Kept(d) {
      var i :| 0 <= i < |d| && d[i].0 == k && d[i].1.Value? && ToText(d[i].1.v) == t;
      GetIndex(d, k, d[i].1);
    }
    if v :| Get(d, k) == Some(Value(v)) && t == ToText(v) {
      GetIndex(d, k, Value(v));
    }
    GetIndex(d, "form_type", Value(Str(formType)));
    KeptIndex(d, "form_type", formType);
    GetIndex(d, "url", Value(Str(href)));
    KeptIndex(d, "url", href);
  }

  // ---------------------------------------------------------------------------
  // Outcomes
  // ---------------------------------------------------------------------------

  /**
   * The try block after fetch and its catch: a network failure, a non-ok
   * status or an unreadable body becomes "Network error: " + the message;
   * a readable body passes the endpoint's verdict on.
   */
  function FetchOutcome(fetch: FetchResult): (r: Reply)
    ensures r.success <==> fetch.HttpResponse? && StatusOk(fetch.status) && fetch.body.Body? && fetch.body.success
    ensures r.success ==> r.message == Saved
    ensures fetch.HttpResponse? && StatusOk(fetch.status) && fetch.body.Body? && !fetch.body.success ==>
              r.message == fetch.body.message
    ensures fetch.HttpResponse? && !StatusOk(fetch.status) ==>
              r.message == NetworkErrorPrefix + HttpErrorPrefix + Decimal(fetch.status)
    ensures fetch.NetworkFailure? ==> r.message == NetworkErrorPrefix + fetch.error
  {
    match fetch
    case NetworkFailure(e) => Reply(false, NetworkErrorPrefix + e)
    case HttpResponse(status, body) =>
      if !StatusOk(status) then Reply(false, NetworkErrorPrefix + HttpErrorPrefix + Decimal(status))
      else match body
        case Unparsable(e) => Reply(false, NetworkErrorPrefix + e)
        case Body(success, message) => if success then Reply(true, Saved) else Reply(false, message)
  }

  /** The status of a rejected response can be read back from the failure message. */
  lemma HttpStatusRecoverable(status: nat)
    requires !StatusOk(status)
    ensures var m := FetchOutcome(HttpResponse(status, Unparsable(""))).message;
      var prefix := NetworkErrorPrefix + HttpErrorPrefix;
      prefix <= m && ParseDecimal(m[|prefix|..]) == status
  {
    var prefix := NetworkErrorPrefix + HttpErrorPrefix;
    var m := prefix + Decimal(status);
    assert m[|prefix|..] == Decimal(status);
    DecimalRoundTrip(status);
  }

  /**
   * submitToGoogleSheets as written. The `const formData` of line 56 is in
   * scope in the whole try block, so the `instanceof` read of line 38 is in
   * its temporal dead zone: every enabled, non-local call ends in the catch
   * before any request is made.
   */
  function SubmitAsWritten(isLocal: bool, isEnabled: bool, input: SheetsInput): (r: Attempt)
    ensures r.request.None?
    ensures isLocal ==> (r.settled.Resolved? <==> input.FormDataInput?)
    ensures isLocal && r.settled.Resolved? ==> r.settled.reply == Reply(true, Simulated)
    ensures !isLocal ==> r.settled.Resolved? && !r.settled.reply.success
    ensures !isLocal && isEnabled ==> r.settled.reply.message == NetworkErrorPrefix + TdzMessage
  {
    if isLocal then
      (if input.FormDataInput? then Attempt(Resolved(Reply(true, Simulated)), None) else Attempt(Rejected, None))
    else if !isEnabled then Attempt(Resolved(Reply(false, NotConfigured)), None)
    else Attempt(Resolved(Reply(false, NetworkErrorPrefix + TdzMessage)), None)
  }

  class GoogleSheetsIntegration {
    var webAppUrl: string
    var isEnabled: bool

    ghost predicate Valid()
      reads this
    {
      isEnabled <==> EnabledFor(webAppUrl)
    }

    /** The deployed URL, compared against the placeholder. */
    constructor ()
      ensures webAppUrl == DeployedUrl && isEnabled
      ensures Valid()
    {
      webAppUrl := DeployedUrl;
      isEnabled := DeployedUrl != Placeholder;
    }

    method SetWebAppUrl(url: string)
      modifies this
      ensures webAppUrl == url
      ensures isEnabled <==> EnabledFor(url)
      ensures Valid()
    {
      webAppUrl := url;
      isEnabled := url != "" && url != Placeholder;
    }

    /**
     * submitToGoogleSheets with the body built under its own name: local
     * mode first, then the enabled check, then the payload and the POST.
     */
    method SubmitToGoogleSheets(input: SheetsInput, formType: string, isLocal: bool, href: string, fetch: FetchResult)
      returns (a: Attempt)
      ensures isLocal && input.FormDataInput? ==> a == Attempt(Resolved(Reply(true, Simulated)), None)
      ensures isLocal && !input.FormDataInput? ==> a == Attempt(Rejected, None)
      ensures !isLocal && !isEnabled ==> a == Attempt(Resolved(Reply(false, NotConfigured)), None)
      ensures !isLocal && isEnabled && input.NullInput? ==>
        a == Attempt(Resolved(Reply(false, NetworkErrorPrefix + InvalidInput)), None)
      ensures !isLocal && isEnabled && input.FormDataInput? ==>
        a == Attempt(Resolved(FetchOutcome(fetch)),
                     Some(Kept(WithMetadata(FromEntries(EntriesAsFields(input.entries)), formType, href))))
      ensures !isLocal && isEnabled && input.ObjectInput? ==>
        a == Attempt(Resolved(FetchOutcome(fetch)), Some(Kept(WithMetadata(input.props, formType, href))))
      ensures !isLocal ==> a.settled.Resolved?
      ensures a.request.Some? <==> !isLocal && isEnabled && !input.NullInput?
    {
      if isLocal {
        // Object.fromEntries, logged before the reply, throws on anything but FormData.
        if input.FormDataInput? {
          return Attempt(Resolved(Reply(true, Simulated)), None);
        }
        return Attempt(Rejected, None);
      }
      if !isEnabled {
        return Attempt(Resolved(Reply(false, NotConfigured)), None);
      }
      var data: Obj<Field>;
      match input {
        case FormDataInput(es) =>
          data := FromEntries(EntriesAsFields(es));
        case ObjectInput(props) =>
          data := props;
        case NullInput =>
          return Attempt(Resolved(Reply(false, NetworkErrorPrefix + InvalidInput)), None);
      }
      data := Set(data, "form_type", Value(Str(formType)));
      data := Set(data, "url", Value(Str(href)));
      var body := BuildBody(data);
      return Attempt(Resolved(FetchOutcome(fetch)), Some(body));
    }

    /**
     * testConnection: a disabled integration reports so without a request;
     * otherwise a two-entry test POST succeeds whenever the response is ok
     * and readable, whatever the endpoint answers.
     */
    method TestConnection(now: string, fetch: FetchResult) returns (a: Attempt)
      ensures !isEnabled ==> a == Attempt(Resolved(Reply(false, NotConfigured)), None)
      ensures isEnabled ==> a.request == Some([("test", "true"), ("timestamp", now)])
      ensures isEnabled ==>
        a.settled.Resolved? && (a.settled.reply.success <==> fetch.HttpResponse? && StatusOk(fetch.status) && fetch.body.Body?)
      ensures isEnabled && a.settled.reply.success ==> a.settled.reply.message == ConnectionOk
      ensures isEnabled && !a.settled.reply.success ==> ConnectionFailedPrefix <= a.settled.reply.message
    {
      if !isEnabled {
        return Attempt(Resolved(Reply(false, NotConfigured)), None);
      }
      var request := [("test", "true"), ("timestamp", now)];
      var reply: Reply;
      match fetch {
        case NetworkFailure(e) =>
          reply := Reply(false, ConnectionFailedPrefix + e);
        case HttpResponse(status, body) =>
          if !StatusOk(status) {
            reply := Reply(false, ConnectionFailedPrefix + HttpErrorPrefix + Decimal(status));
          } else if body.Unparsable? {
            reply := Reply(false, ConnectionFailedPrefix + body.error);
          } else {
            reply := Reply(true, ConnectionOk);
          }
      }
      return Attempt(Resolved(reply), Some(request));
    }
  }

  /**
   * The call sendToServer makes, on an https page with the integration
   * enabled and a server that stores the row: as written it fails without
   * posting; with the body under its own name it posts and succeeds.
   */
  lemma TdzCounterexample(props: Obj<Field>, formType: string, href: string)
    ensures SubmitAsWritten(false, true, ObjectInput(props)) ==
            Attempt(Resolved(Reply(false, NetworkErrorPrefix + TdzMessage)), None)
    ensures FetchOutcome(HttpResponse(200, Body(true, "Form submitted successfully"))) == Reply(true, Saved)
  {
  }
}
