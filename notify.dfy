/**
 * The request `sendMessage` hands to the HTTP client: one form POST to the
 * notification service, authorised by the bearer token read from the card.
 */
module Notify {
  import opened Optional

  datatype Header = Header(name: string, value: string)

  datatype Request = Request(verb: string, url: string, headers: seq<Header>, body: string)

  const NOTIFY_URL := "https://notify-api.line.me/api/notify"
  const FORM_CONTENT_TYPE := "application/x-www-form-urlencoded"
  const BEARER_PREFIX := "Bearer "
  const MESSAGE_FIELD := "message"

  /**
   * `sendMessage(message)` with the current `token`: the message goes into
   * the body after `message=` exactly as it is, without percent-encoding.
   */
  function NotifyRequest(message: string, token: string): (r: Request)
    ensures r.verb == "POST" && r.url == NOTIFY_URL && |r.headers| == 2
  {
    Request(
      "POST",
      NOTIFY_URL,
      [Header("Content-Type", FORM_CONTENT_TYPE), Header("Authorization", BEARER_PREFIX + token)],
      MESSAGE_FIELD + "=" + message)
  }

  /** The value of the first header called `name`, as a server would look it up. */
  function HeaderValue(headers: seq<Header>, name: string): (v: Option<string>)
    ensures v.Some? <==> exists i :: 0 <= i < |headers| && headers[i].name == name
    ensures v.Some? ==> exists i :: 0 <= i < |headers| && headers[i] == Header(name, v.value)
  {
    if headers == [] then None
    else if headers[0].name == name then Some(headers[0].value)
    else
      var v := HeaderValue(headers[1..], name);
      assert forall i :: 0 < i < |headers| ==> headers[i] == headers[1..][i - 1];
      v
  }

  /** A form body that starts with `field=`, read back: everything after the `=`. */
  function FormValue(body: string, field: string): (v: Option<string>)
    ensures v.Some? ==> body == field + "=" + v.value
  {
    var key := field + "=";
    if |key| <= |body| && body[..|key|] == key then Some(body[|key|..]) else None
  }

  /** The credential in an `Authorization` value of the bearer scheme. */
  function BearerCredential(value: string): (v: Option<string>)
    ensures v.Some? ==> value == BEARER_PREFIX + v.value
  {
    if |BEARER_PREFIX| <= |value| && value[..|BEARER_PREFIX|] == BEARER_PREFIX
    then Some(value[|BEARER_PREFIX|..]) else None
  }

  /**
   * What the service receives: a POST to the fixed endpoint, a form content
   * type, the token back out of the bearer header, and the message back out
   * of the body unchanged.
   */
  lemma NotifyRequestCarries(message: string, token: string)
    ensures var r := NotifyRequest(message, token);
      && r.verb == "POST" && r.url == NOTIFY_URL
      && HeaderValue(r.headers, "Content-Type") == Some(FORM_CONTENT_TYPE)
      && HeaderValue(r.headers, "Authorization").Some?
      && BearerCredential(HeaderValue(r.headers, "Authorization").value) == Some(token)
      && FormValue(r.body, MESSAGE_FIELD) == Some(message)
  {
    var r := NotifyRequest(message, token);
    assert HeaderValue(r.headers, "Authorization") == Some(BEARER_PREFIX + token);
    assert (BEARER_PREFIX + token)[..|BEARER_PREFIX|] == BEARER_PREFIX;
    assert r.body[..|MESSAGE_FIELD + "="|] == MESSAGE_FIELD + "=";
  }

  /** Different messages or tokens make different requests: nothing is lost in building one. */
  lemma NotifyRequestInjective(m1: string, t1: string, m2: string, t2: string)
    ensures NotifyRequest(m1, t1) == NotifyRequest(m2, t2) <==> m1 == m2 && t1 == t2
  {
    if NotifyRequest(m1, t1) == NotifyRequest(m2, t2) {
      NotifyRequestCarries(m1, t1);
      NotifyRequestCarries(m2, t2);
    }
  }
}
