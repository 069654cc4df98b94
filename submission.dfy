/**
 * What the forms and cards share beyond the reason chain: how a non-ok reply
 * becomes a thrown `Error` (the cards and the monitor editor), how it becomes
 * an alert followed by a throw (the add forms), the machine and monitor
 * sorts of the pickers, and the lookup of a monitor by its id.
 *
 * The sorts are modelled on arrays without `undefined` elements, which a
 * parsed JSON body cannot contain.
 */
module Submission {
  import opened Common
  import opened Text
  import opened Js
  import opened Http
  import opened Sorting
  import opened ApiConfig
  import opened ListShape
  import opened Ui

  /** `${apiBase.replace(/\/$/, '')}/api/v1` with the build-time base. */
  function ApiBase(cfg: BuildConfig): (base: string)
    ensures DefaultApiUrl(cfg) <= base && base[|DefaultApiUrl(cfg)|..] == "/api/v1"
  {
    DefaultApiUrl(cfg) + "/api/v1"
  }

  /** `?machine_name=<encoded>`: the query a reassign request carries. */
  function MachineQuery(machine: string): (q: string)
    ensures "?machine_name=" <= q
    ensures forall k :: |"?machine_name="| <= k < |q| ==> q[k] != '&' && q[k] != '#' && q[k] != '='
  {
    var enc := EncodeUriComponent(machine);
    assert forall k :: 0 <= k < |enc| ==> IsEncodedChar(enc[k]);
    "?machine_name=" + enc
  }

  /** `POST ${base}/monitors/${id}/reassign?machine_name=...`, with no body. */
  function ReassignRequest(base: string, id: string, machine: string): (r: Request)
    ensures r.verb == POST && r.payload.None?
    ensures base + "/monitors/" + id + "/reassign" <= r.url
    ensures r.url[|base + "/monitors/" + id + "/reassign"|..] == MachineQuery(machine)
  {
    Request(POST, base + "/monitors/" + id + "/reassign" + MachineQuery(machine), None)
  }

  /** The machine name stays one query parameter: nothing after `?machine_name=` can start another. */
  lemma MachineStaysOneParameter(base: string, id: string, machine: string)
    ensures var r := ReassignRequest(base, id, machine);
      var prefix := base + "/monitors/" + id + "/reassign?machine_name=";
      && prefix <= r.url
      && forall k :: |prefix| <= k < |r.url| ==> r.url[k] != '&' && r.url[k] != '#' && r.url[k] != '='
  {
    var head := base + "/monitors/" + id + "/reassign";
    var q := MachineQuery(machine);
    var url := ReassignRequest(base, id, machine).url;
    assert url == head + q;
    assert head + "?machine_name=" == base + "/monitors/" + id + "/reassign?machine_name=";
    forall k | |head| + |"?machine_name="| <= k < |url|
      ensures url[k] != '&' && url[k] != '#' && url[k] != '='
    {
      assert url[k] == q[k - |head|];
    }
  }

  // ---------------------------------------------------------------------------
  // Non-ok replies

  /**
   * The error a card or the monitor editor catches from one request: the
   * network failure, the `res.text()` failure after an unparsable error body,
   * or `new Error(errorMsg)` with the reason as text; `None` for an ok reply.
   */
  function CaughtFailure(resp: Response): (f: Option<Failure>)
    ensures f.None? <==> resp.Reply? && resp.ok
    ensures resp.NetworkError? ==> f == Some(NetworkFailure(resp.message))
    ensures resp.Reply? && !resp.ok ==>
      match ReadReason(resp.body)
      case ReadThrew(g) => f == Some(g)
      case Reason(m) => f == Some(ErrorWith(m))
  {
    match resp
    case NetworkError(m) => Some(NetworkFailure(m))
    case Reply(ok, _, body) =>
      if ok then None
      else
        match ReadReason(body)
        case ReadThrew(g) => Some(g)
        case Reason(m) => Some(ErrorWith(m))
  }

  /** A non-ok reply whose reason is text reports exactly that text. */
  lemma CaughtReasonText(status: int, body: Json)
    requires ReasonOf(body).Str?
    ensures CaughtFailure(Reply(false, status, Parsed(body))) == Some(Failure("Error", ReasonOf(body).s))
  {
  }

  /** A non-ok reply with no reason at all gives an `Error` with an empty message. */
  lemma CaughtNoReasonIsEmpty(status: int, body: Json)
    requires ReasonOf(body).Undefined?
    ensures CaughtFailure(Reply(false, status, Parsed(body))) == Some(Failure("Error", ""))
  {
  }

  /** How far a form's request got: through, or stopped with an optional alert and the thrown failure. */
  datatype Step = Passed | Stopped(alert: Option<Alert>, failure: Failure)

  /**
   * `Alert.alert(title, errorMsg)` when `lead` is `None`, and
   * `` Alert.alert(title, `${lead}${errorMsg}`) `` otherwise; an `undefined`
   * message is no message in the first form and "undefined" in the second.
   */
  function ReasonAlert(title: string, lead: Option<string>, m: Option<string>): (a: Alert)
    ensures a.title == title
    ensures lead.None? ==> a.message == m.GetOr("")
    ensures lead.Some? ==> lead.value <= a.message && a.message[|lead.value|..] == Shown(m)
  {
    if lead.Some? then Alert(title, lead.value + Shown(m)) else Alert(title, m.GetOr(""))
  }

  /** `` `${label} (${res.status})` ``, the message used when the reason is empty. */
  function StatusFallback(what: string, status: int): string {
    what + " (" + IntToString(status) + ")"
  }

  /**
   * A form's handling of one reply: an ok reply passes; a non-ok reply alerts
   * the reason and throws `new Error(errorMsg || fallback)`; a network error
   * or an unreadable error body throws without an alert.
   */
  function CheckedReply(resp: Response, title: string, lead: Option<string>, what: string): (s: Step)
    ensures s.Passed? <==> resp.Reply? && resp.ok
    ensures s.Stopped? && s.alert.Some? <==> resp.Reply? && !resp.ok && resp.body.Parsed?
    ensures resp.NetworkError? ==> s == Stopped(None, NetworkFailure(resp.message))
    ensures resp.Reply? && !resp.ok && resp.body.Unparsable? ==> s == Stopped(None, RereadFailure)
    ensures resp.Reply? && !resp.ok && resp.body.Parsed? ==>
      var m := ErrorMessage(ReasonOf(resp.body.value));
      s == Stopped(Some(ReasonAlert(title, lead, m)), ErrorWith(Some(MessageOr(m, StatusFallback(what, resp.status)))))
  {
    match resp
    case NetworkError(m) => Stopped(None, NetworkFailure(m))
    case Reply(ok, status, body) =>
      if ok then Passed
      else
        match ReadReason(body)
        case ReadThrew(g) => Stopped(None, g)
        case Reason(m) => Stopped(Some(ReasonAlert(title, lead, m)), ErrorWith(Some(MessageOr(m, StatusFallback(what, status)))))
  }

  /** An empty or missing reason falls back to the status text, which is never empty. */
  lemma FallbackCarriesStatus(status: int, body: Json, title: string, lead: Option<string>, what: string)
    requires ErrorMessage(ReasonOf(body)).None? || ErrorMessage(ReasonOf(body)).value == []
    ensures CheckedReply(Reply(false, status, Parsed(body)), title, lead, what).failure.message == StatusFallback(what, status)
    ensures StatusFallback(what, status) != []
  {
  }

  /** The alert and the thrown error agree on a non-empty reason. */
  lemma AlertAndErrorAgree(status: int, body: Json, title: string, what: string)
    requires ErrorMessage(ReasonOf(body)).Some? && ErrorMessage(ReasonOf(body)).value != []
    ensures var s := CheckedReply(Reply(false, status, Parsed(body)), title, None, what);
      s.alert.Some? && s.alert.value.message == s.failure.message
  {
  }

  // ---------------------------------------------------------------------------
  // Form fields

  /** `v || ''` as displayed text; a non-string value is held as its text. */
  function FieldText(v: Json): (s: string)
    ensures !Truthy(v) ==> s == ""
    ensures v.Str? ==> s == v.s
  {
    ToText(Or(v, Str("")))
  }

  /** `String(m.id)`. */
  function IdText(m: Json): string {
    ToText(Get(m, "id"))
  }

  // ---------------------------------------------------------------------------
  // data.find(m => String(m.id) === String(wanted))

  /** The result of `find`: the first match, no match, or a throw on a nullish element reached first. */
  datatype Search = Found(item: Json) | Missing | Threw

  /** `find` passes over the first `k` elements: none is nullish and none has the wanted id. */
  predicate PassesOver(items: seq<Json>, wanted: string, k: int)
    requires 0 <= k <= |items|
  {
    forall j :: 0 <= j < k ==> !Nullish(items[j]) && IdText(items[j]) != wanted
  }

  function FindById(items: seq<Json>, wanted: string): (r: Search)
    ensures r.Found? ==>
      exists k :: 0 <= k < |items| && items[k] == r.item && !Nullish(items[k]) && IdText(items[k]) == wanted
        && PassesOver(items, wanted, k)
    ensures r.Missing? <==> PassesOver(items, wanted, |items|)
    ensures r.Threw? ==> exists k :: 0 <= k < |items| && Nullish(items[k]) && PassesOver(items, wanted, k)
  {
    if items == [] then Missing
    else if Nullish(items[0]) then Threw
    else if IdText(items[0]) == wanted then Found(items[0])
    else
      var r := FindById(items[1..], wanted);
      assert forall k :: 1 <= k < |items| ==> items[k] == items[1..][k - 1];
      assert forall k :: 0 <= k < |items| ==> (PassesOver(items, wanted, k + 1) <==> PassesOver(items[1..], wanted, k));
      r
  }

  /** `find` on the settled JSON: a non-array (`find` is not a function) or a failed request throws. */
  function SearchReply(resp: Response, wanted: string): (r: Search)
    ensures Fetched(resp).None? || !Fetched(resp).value.Arr? ==> r == Threw
    ensures Fetched(resp).Some? && Fetched(resp).value.Arr? ==> r == FindById(Fetched(resp).value.items, wanted)
  {
    match Fetched(resp)
    case None => Threw
    case Some(data) => if data.Arr? then FindById(data.items, wanted) else Threw
  }

  /** Ids are compared as text: a numeric id matches the route's string form of it. */
  lemma NumericIdMatchesItsText(members: seq<Member>, n: int)
    requires Lookup(members, "id") == Num(n)
    ensures FindById([Obj(members)], IntToString(n)) == Found(Obj(members))
  {
  }

  // ---------------------------------------------------------------------------
  // Machines by name: (a.name || '').localeCompare(b.name || '')

  /**
   * `a.name || ''` is a string, so `localeCompare` can be called on it. As
   * the argument, a value that is not a string is converted with `String`.
   */
  predicate HasTextName(m: Json) {
    Or(Get(m, "name"), Str("")).Str?
  }

  /** The text a machine's name compares by: a string name as it is, a falsy one as "". */
  function NameOf(m: Json): (s: string)
    ensures Get(m, "name").Str? ==> s == Get(m, "name").s
    ensures !Truthy(Get(m, "name")) ==> s == ""
  {
    ToText(Or(Get(m, "name"), Str("")))
  }

  function ByName(): (Json, Json) -> int {
    (a: Json, b: Json) => LocaleCompare(NameOf(a), NameOf(b))
  }

  lemma ByNameIsTotalPreorder()
    ensures TotalPreorder(ByName())
  {
    forall a: Json, b: Json
      ensures ByName()(a, b) < 0 <==> ByName()(b, a) > 0
    {
      LocaleCompareAntisymmetric(NameOf(a), NameOf(b));
    }
    forall a: Json, b: Json, c: Json | ByName()(a, b) <= 0 && ByName()(b, c) <= 0
      ensures ByName()(a, c) <= 0
    {
      LocaleCompareTransitive(NameOf(a), NameOf(b), NameOf(c));
    }
  }

  /**
   * A comparison of the machines sort throws. With two or more elements the
   * engine compares every one: `a.name` or `b.name` throws on a nullish
   * element, and the engine's insertion pass passes every element after the
   * first as the receiver `a`, whose `name || ''` must then be a string.
   */
  predicate MachineSortThrows(items: seq<Json>) {
    |items| >= 2 && (SomeNullish(items) || exists k :: 1 <= k < |items| && !HasTextName(items[k]))
  }

  /**
   * The machines state after the fetch: the array sorted by name, or `[]`
   * when the request or parse fails, the data is not an array, or a
   * comparison throws.
   */
  function SortedMachines(resp: Response): (r: seq<Json>)
    ensures Fetched(resp).None? || !Fetched(resp).value.Arr? ==> r == []
    ensures Fetched(resp).Some? && Fetched(resp).value.Arr? ==>
      var items := Fetched(resp).value.items;
      if MachineSortThrows(items) then r == []
      else multiset(r) == multiset(items)
  {
    match Fetched(resp)
    case None => []
    case Some(data) =>
      if !data.Arr? then []
      else if MachineSortThrows(data.items) then []
      else Sort(data.items, ByName())
  }

  /** When the sort succeeds the machines are in name order. */
  lemma MachinesInNameOrder(resp: Response, i: int, j: int)
    requires 0 <= i < j < |SortedMachines(resp)|
    ensures LocaleCompare(NameOf(SortedMachines(resp)[i]), NameOf(SortedMachines(resp)[j])) <= 0
  {
    var data := Fetched(resp).value;
    ByNameIsTotalPreorder();
    SortSorted(data.items, ByName());
  }

  /** A single machine needs no comparison, so even an incomparable one is kept. */
  lemma SingleMachineKept(m: Json)
    ensures SortedMachines(Reply(true, 200, Parsed(Arr([m])))) == [m]
  {
    assert Sort([m], ByName()) == [m];
  }

  /** A number name in the argument position is compared by its text: `'a'.localeCompare(5)` does not throw. */
  lemma NumberNameFirstIsSorted()
    ensures var m5 := Obj([Member("name", Num(5))]);
      var ma := Obj([Member("name", Str("a"))]);
      SortedMachines(Reply(true, 200, Parsed(Arr([m5, ma])))) == [m5, ma]
  {
    var m5 := Obj([Member("name", Num(5))]);
    var ma := Obj([Member("name", Str("a"))]);
    assert NameOf(m5) == "5" by {
      assert Get(m5, "name") == Num(5);
      assert IntToString(5) == "5";
    }
    assert NameOf(ma) == "a";
    assert HasTextName(ma);
    assert !MachineSortThrows([m5, ma]) by {
      assert !SomeNullish([m5, ma]);
    }
    assert Sort([ma], ByName()) == [ma];
    assert LocaleCompare("5", "a") < 0;
  }

  /** The same name as the receiver throws: `(5).localeCompare` is not a function, and the list is `[]`. */
  lemma NumberNameSecondThrows()
    ensures var m5 := Obj([Member("name", Num(5))]);
      var ma := Obj([Member("name", Str("a"))]);
      SortedMachines(Reply(true, 200, Parsed(Arr([ma, m5])))) == []
  {
    var m5 := Obj([Member("name", Num(5))]);
    assert Get(m5, "name") == Num(5);
    assert !HasTextName(m5);
  }

  // ---------------------------------------------------------------------------
  // Monitors by id: a.id - b.id

  /**
   * `Number(v)` for the values an id can hold; `None` is `NaN`. Strings,
   * arrays and objects are taken to be `NaN`.
   */
  function IdNumber(v: Json): (r: Option<int>)
    ensures v.Num? ==> r == Some(v.n)
    ensures v.Undefined? ==> r.None?
  {
    match v
    case Num(n) => Some(n)
    case Null => Some(0)
    case Bool(b) => Some(if b then 1 else 0)
    case _ => None
  }

  /** `a.id - b.id`, with a `NaN` difference read as a tie, as the sort does. */
  function IdDifference(a: Json, b: Json): int {
    var x := IdNumber(Get(a, "id"));
    var y := IdNumber(Get(b, "id"));
    if x.Some? && y.Some? then x.value - y.value else 0
  }

  function ByIdDifference(): (Json, Json) -> int {
    (a: Json, b: Json) => IdDifference(a, b)
  }

  /** The id is a number, so the difference is defined. */
  predicate NumericId(m: Json) {
    Get(m, "id").Num?
  }

  /** The numeric key of a monitor, `0` where its id is not a number. */
  function IdKey(m: Json): int {
    IdNumber(Get(m, "id")).GetOr(0)
  }

  function ByIdKey(): (Json, Json) -> int {
    (a: Json, b: Json) => IdKey(a) - IdKey(b)
  }

  /**
   * The available monitors after the fetch: the array sorted by id, or `[]`
   * when the request or parse fails, the data is not an array, or a
   * comparison reads `id` of a nullish element.
   */
  function SortedMonitors(resp: Response): (r: seq<Json>)
    ensures Fetched(resp).None? || !Fetched(resp).value.Arr? ==> r == []
    ensures Fetched(resp).Some? && Fetched(resp).value.Arr? ==>
      var items := Fetched(resp).value.items;
      if |items| >= 2 && exists k :: 0 <= k < |items| && Nullish(items[k]) then r == []
      else multiset(r) == multiset(items)
  {
    match Fetched(resp)
    case None => []
    case Some(data) =>
      if !data.Arr? then []
      else if |data.items| >= 2 && exists k :: 0 <= k < |data.items| && Nullish(data.items[k]) then []
      else Sort(data.items, ByIdDifference())
  }

  lemma ByIdKeyIsTotalPreorder()
    ensures TotalPreorder(ByIdKey())
  {
  }

  lemma DifferenceOfNumericIds(a: Json, b: Json)
    requires NumericId(a) && NumericId(b)
    ensures IdDifference(a, b) == IdKey(a) - IdKey(b)
  {
  }

  /** Where every id is a number the two comparators agree, so they sort alike. */
  lemma NumericIdsSortByKey(items: seq<Json>)
    requires forall k :: 0 <= k < |items| ==> NumericId(items[k])
    ensures Sort(items, ByIdDifference()) == Sort(items, ByIdKey())
  {
    assert forall m :: m in items ==> NumericId(m);
    forall a, b | a in items && b in items
      ensures ByIdDifference()(a, b) == ByIdKey()(a, b)
    {
      DifferenceOfNumericIds(a, b);
      assert ByIdDifference()(a, b) == IdDifference(a, b);
      assert ByIdKey()(a, b) == IdKey(a) - IdKey(b);
    }
    SortCongruent(items, ByIdDifference(), ByIdKey());
  }

  /** A list whose ids are all numbers sorts into ascending id order. */
  lemma NumericIdsAscend(items: seq<Json>, i: int, j: int)
    requires forall k :: 0 <= k < |items| ==> NumericId(items[k])
    requires 0 <= i < j < |items|
    ensures var r := Sort(items, ByIdDifference());
      NumericId(r[i]) && NumericId(r[j]) && Get(r[i], "id").n <= Get(r[j], "id").n
  {
    NumericIdsSortByKey(items);
    var r := Sort(items, ByIdKey());
    ByIdKeyIsTotalPreorder();
    SortSorted(items, ByIdKey());
    SortKeepsElements(items, ByIdKey(), i);
    SortKeepsElements(items, ByIdKey(), j);
    KeyOfNumericId(r[i]);
    KeyOfNumericId(r[j]);
  }

  lemma KeyOfNumericId(m: Json)
    requires NumericId(m)
    ensures IdKey(m) == Get(m, "id").n
  {
  }

  /** When every id is a number, the monitors come out in ascending id order. */
  lemma MonitorsInIdOrder(resp: Response, i: int, j: int)
    requires Fetched(resp).Some? && Fetched(resp).value.Arr?
    requires forall k :: 0 <= k < |Fetched(resp).value.items| ==> NumericId(Fetched(resp).value.items[k])
    requires 0 <= i < j < |SortedMonitors(resp)|
    ensures var r := SortedMonitors(resp);
      NumericId(r[i]) && NumericId(r[j]) && Get(r[i], "id").n <= Get(r[j], "id").n
  {
    var items := Fetched(resp).value.items;
    assert !exists k :: 0 <= k < |items| && Nullish(items[k]) by {
      forall k | 0 <= k < |items|
        ensures !Nullish(items[k])
      {
        assert NumericId(items[k]);
      }
    }
    assert SortedMonitors(resp) == Sort(items, ByIdDifference());
    NumericIdsAscend(items, i, j);
  }
}
