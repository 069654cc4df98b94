/**
 * What the client sends and receives over `fetch`, and the error-reporting
 * chain every form and card shares: the reason read from an error body,
 * its conversion to text, and JavaScript's `Error` text.
 */
module Http {
  import opened Common
  import opened Text
  import opened Js

  datatype Verb = GET | POST | PUT | DELETE

  /** A request the client issues: method, URL and (for POST/PUT with a payload) the JSON body. */
  datatype Request = Request(verb: Verb, url: string, payload: Option<Json>)

  /**
   * A response body as `res.json()` sees it. `Unparsable` is a body that is
   * not JSON: `res.json()` rejects, and the body has then been consumed.
   */
  datatype Body = Parsed(value: Json) | Unparsable

  /** The outcome of one `fetch`: it rejects, or it resolves with a status and a body. */
  datatype Response = NetworkError(message: string) | Reply(ok: bool, status: int, body: Body)

  /** A thrown JavaScript error: its constructor name and its `message`. */
  datatype Failure = Failure(name: string, message: string)

  /** The rejection of `res.json()` on a body that is not JSON. */
  const ParseFailure := Failure("SyntaxError", "JSON Parse error")
  /** The rejection of `res.text()` once `res.json()` has consumed the body. */
  const RereadFailure := Failure("TypeError", "Already read")

  /** The rejection `fetch` produces for a network error. */
  function NetworkFailure(message: string): Failure {
    Failure("TypeError", message)
  }

  /** `String(err)` for an `Error`: `name: message`, or just the name when the message is empty. */
  function ErrorText(f: Failure): (r: string)
    ensures f.message == [] ==> r == f.name
    ensures f.message != [] && f.name != [] ==> r == f.name + ": " + f.message
    ensures |f.message| <= |r| && r[|r| - |f.message|..] == f.message
  {
    if f.message == [] then f.name
    else if f.name == [] then f.message
    else f.name + ": " + f.message
  }

  /** `` `${String(err).slice(0, 300)}` ``: the text a form keeps in its `error` state. */
  function ErrorState(f: Failure): (r: string)
    ensures |r| <= 300
    ensures r <= ErrorText(f)
  {
    var t := ErrorText(f);
    if |t| <= 300 then t else t[..300]
  }

  /** `new Error(m)` for a message that may be `undefined` (which leaves the message empty). */
  function ErrorWith(m: Option<string>): (f: Failure)
    ensures f.name == "Error"
    ensures m.Some? ==> f.message == m.value
    ensures m.None? ==> f.message == []
  {
    Failure("Error", m.GetOr([]))
  }

  /** `body?.detail?.reason || body?.detail || body?.message || body?.error`. */
  function ReasonOf(body: Json): (r: Json)
    ensures Truthy(Get(Get(body, "detail"), "reason")) ==> r == Get(Get(body, "detail"), "reason")
    ensures !Truthy(Get(Get(body, "detail"), "reason")) && Truthy(Get(body, "detail")) ==> r == Get(body, "detail")
    ensures !Truthy(Get(Get(body, "detail"), "reason")) && !Truthy(Get(body, "detail")) && Truthy(Get(body, "message"))
      ==> r == Get(body, "message")
    ensures !Truthy(Get(Get(body, "detail"), "reason")) && !Truthy(Get(body, "detail")) && !Truthy(Get(body, "message"))
      ==> r == Get(body, "error")
  {
    Or(Or(Or(Get(Get(body, "detail"), "reason"), Get(body, "detail")), Get(body, "message")), Get(body, "error"))
  }

  /** `typeof msg === 'string' ? msg : JSON.stringify(msg)`; `None` stands for `undefined`. */
  function ErrorMessage(msg: Json): (r: Option<string>)
    ensures msg.Str? ==> r == Some(msg.s)
    ensures r.None? <==> msg.Undefined?
  {
    if msg.Str? then Some(msg.s) else Stringify(msg)
  }

  /** `${errorMsg}` in an alert: an `undefined` message prints as "undefined". */
  function Shown(m: Option<string>): string {
    m.GetOr("undefined")
  }

  /** `errorMsg || fallback`. */
  function MessageOr(m: Option<string>, fallback: string): (r: string)
    ensures m.Some? && m.value != [] ==> r == m.value
    ensures m.None? || m.value == [] ==> r == fallback
  {
    if m.Some? && m.value != [] then m.value else fallback
  }

  /**
   * The error-body step of a failed (non-ok) reply: the reason as message
   * text, or the failure thrown by the `res.text()` fallback when the body
   * was not JSON.
   */
  datatype ReasonRead = Reason(message: Option<string>) | ReadThrew(failure: Failure)

  function ReadReason(body: Body): (r: ReasonRead)
    ensures body.Unparsable? ==> r == ReadThrew(RereadFailure)
    ensures body.Parsed? ==> r == Reason(ErrorMessage(ReasonOf(body.value)))
  {
    match body
    case Unparsable => ReadThrew(RereadFailure)
    case Parsed(v) => Reason(ErrorMessage(ReasonOf(v)))
  }

  /** A structured reason under `detail.reason` wins over everything else in the body. */
  lemma NestedReasonWins(reason: string, detailRest: seq<Member>, rest: seq<Member>)
    requires reason != []
    ensures ErrorMessage(ReasonOf(Obj(rest + [Member("detail", Obj(detailRest + [Member("reason", Str(reason))]))])))
      == Some(reason)
  {
    GetLastMember(detailRest, "reason", Str(reason));
    GetLastMember(rest, "detail", Obj(detailRest + [Member("reason", Str(reason))]));
  }

  /** A FastAPI-style `{"detail": "..."}` body reports its detail text verbatim. */
  lemma DetailTextReported(detail: string)
    requires detail != []
    ensures ErrorMessage(ReasonOf(Obj([Member("detail", Str(detail))]))) == Some(detail)
  {
    assert Get(Obj([Member("detail", Str(detail))]), "detail") == Str(detail);
  }

  /** A body with none of the four fields gives an `undefined` message, shown as "undefined". */
  lemma NoReasonIsUndefined(body: Json)
    requires body.Obj?
    requires !HasKey(body.members, "detail") && !HasKey(body.members, "message") && !HasKey(body.members, "error")
    ensures ErrorMessage(ReasonOf(body)).None?
    ensures Shown(ErrorMessage(ReasonOf(body))) == "undefined"
  {
  }

  /** A non-string reason is reported in its JSON form. */
  lemma StructuredReasonStringified(body: Json)
    requires !ReasonOf(body).Str? && !ReasonOf(body).Undefined?
    ensures ErrorMessage(ReasonOf(body)) == Stringify(ReasonOf(body))
    ensures ErrorMessage(ReasonOf(body)).Some?
  {
  }
}
