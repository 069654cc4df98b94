/**
 * How the list screens read a list response: the JSON of `fetch(url).then(r
 * => r.json())`, whatever the status, normalised to an array.
 */
module ListShape {
  import opened Common
  import opened Js
  import opened Http

  /**
   * What `r.json()` settles to: `Some(v)` when it resolves, `None` when the
   * fetch or the parse rejects. The status code is not consulted.
   */
  function Fetched(resp: Response): (r: Option<Json>)
    ensures r.Some? <==> resp.Reply? && resp.body.Parsed?
    ensures r.Some? ==> r.value == resp.body.value
  {
    if resp.Reply? && resp.body.Parsed? then Some(resp.body.value) else None
  }

  /** An array is the list; `{<key>: [...]}` gives that array; anything else gives `[]`. */
  function Normalise(data: Json, key: string): (r: seq<Json>)
    ensures data.Arr? ==> r == data.items
    ensures !data.Arr? && Get(data, key).Arr? ==> r == Get(data, key).items
    ensures !data.Arr? && !Get(data, key).Arr? ==> r == []
  {
    if data.Arr? then data.items
    else if Truthy(data) && Get(data, key).Arr? then Get(data, key).items
    else []
  }

  /** A poll handler's new list: the normalised data, or `[]` when the request failed. */
  function PollResult(resp: Response, key: string): (r: seq<Json>)
    ensures Fetched(resp).None? ==> r == []
    ensures Fetched(resp).Some? ==> r == Normalise(Fetched(resp).value, key)
  {
    match Fetched(resp)
    case None => []
    case Some(data) => Normalise(data, key)
  }

  /** A wrapper object whose list sits under a different key normalises to `[]`. */
  lemma WrongWrapperIsEmpty(members: seq<Member>, key: string)
    requires !HasKey(members, key)
    ensures Normalise(Obj(members), key) == []
  {
  }

  /** Normalising an array response and the same array wrapped under the key agree. */
  lemma WrapperAgreesWithArray(items: seq<Json>, key: string)
    ensures Normalise(Obj([Member(key, Arr(items))]), key) == Normalise(Arr(items), key)
  {
    GetLastMember([], key, Arr(items));
    assert [] + [Member(key, Arr(items))] == [Member(key, Arr(items))];
  }

  /** Scalars, `null` and objects without the key all normalise to `[]`. */
  lemma NonListDataIsEmpty(data: Json, key: string)
    requires !data.Arr? && !data.Obj?
    ensures Normalise(data, key) == []
  {
  }
}
