/**
 * The in-app notification log: records deduplicated by id, newest first,
 * persisted under `powermon_notifications_v1` on every change and restored
 * when the provider mounts; an interaction with a notification opens the
 * device it names or the notification list.
 */
module Notifications {
  import opened Common
  import opened Js
  import opened Storage

  const StorageKey := "powermon_notifications_v1"

  /** One logged notification; `createdAt` is the ISO timestamp text of its arrival. */
  datatype Notification = Notification(id: string, title: string, body: string, data: Json, createdAt: string)

  predicate HasId(list: seq<Notification>, id: string) {
    exists k :: 0 <= k < |list| && list[k].id == id
  }

  /** No two records share an id. */
  predicate DistinctIds(list: seq<Notification>) {
    forall i, j :: 0 <= i < j < |list| ==> list[i].id != list[j].id
  }

  // ---------------------------------------------------------------------------
  // The list updaters given to setNotifications

  /**
   * `addNotification(n)`: a missing record or one with an empty id is
   * ignored, as is an id already in the list; otherwise it goes in front.
   */
  function Added(prev: seq<Notification>, n: Option<Notification>): (r: seq<Notification>)
    ensures n.None? || n.value.id == [] ==> r == prev
    ensures n.Some? && HasId(prev, n.value.id) ==> r == prev
    ensures n.Some? && n.value.id != [] && !HasId(prev, n.value.id) ==> r == [n.value] + prev
  {
    if n.None? || n.value.id == [] then prev
    else if exists k :: 0 <= k < |prev| && prev[k].id == n.value.id then prev
    else [n.value] + prev
  }

  /** `clearAllNotifications()`. */
  function ClearedAll(prev: seq<Notification>): (r: seq<Notification>)
    ensures r == []
  {
    []
  }

  /** `clearNotification(id)`: `prev.filter(n => n.id !== id)`. */
  function ClearedOne(prev: seq<Notification>, id: string): (r: seq<Notification>)
    ensures !HasId(r, id)
    ensures |r| <= |prev|
  {
    Filter(prev, (n: Notification) => n.id != id)
  }

  /** Adding the same record again changes nothing: add is idempotent. */
  lemma AddIdempotent(prev: seq<Notification>, n: Option<Notification>)
    ensures Added(Added(prev, n), n) == Added(prev, n)
  {
    if n.Some? && n.value.id != [] && !HasId(prev, n.value.id) {
      assert ([n.value] + prev)[0].id == n.value.id;
    }
  }

  /** A new id is prepended: the length grows by one and the old list is the tail. */
  lemma AddNewPrepends(prev: seq<Notification>, n: Notification)
    requires n.id != [] && !HasId(prev, n.id)
    ensures |Added(prev, Some(n))| == |prev| + 1
    ensures Added(prev, Some(n))[0] == n && Added(prev, Some(n))[1..] == prev
  {
  }

  lemma AddKeepsIdsDistinct(prev: seq<Notification>, n: Option<Notification>)
    requires DistinctIds(prev)
    ensures DistinctIds(Added(prev, n))
  {
    if n.Some? && n.value.id != [] && !HasId(prev, n.value.id) {
      var r := [n.value] + prev;
      forall i, j | 0 <= i < j < |r|
        ensures r[i].id != r[j].id
      {
        if i == 0 {
          assert r[j] == prev[j - 1];
        } else {
          assert r[i] == prev[i - 1] && r[j] == prev[j - 1];
        }
      }
    }
  }

  lemma {:induction false} FilterKeepsIdsDistinct(prev: seq<Notification>, keep: Notification -> bool)
    requires DistinctIds(prev)
    ensures DistinctIds(Filter(prev, keep))
  {
    if prev != [] {
      assert DistinctIds(prev[1..]) by {
        forall i, j | 0 <= i < j < |prev[1..]|
          ensures prev[1..][i].id != prev[1..][j].id
        {
          assert prev[1..][i] == prev[i + 1] && prev[1..][j] == prev[j + 1];
        }
      }
      FilterKeepsIdsDistinct(prev[1..], keep);
      if keep(prev[0]) {
        var tail := Filter(prev[1..], keep);
        var r := [prev[0]] + tail;
        forall i, j | 0 <= i < j < |r|
          ensures r[i].id != r[j].id
        {
          if i == 0 {
            assert r[j] == tail[j - 1] && tail[j - 1] in prev[1..];
            var k :| 0 <= k < |prev[1..]| && prev[1..][k] == tail[j - 1];
            assert prev[k + 1] == tail[j - 1];
          } else {
            assert r[i] == tail[i - 1] && r[j] == tail[j - 1];
          }
        }
      }
    }
  }

  /** Ids stay pairwise distinct across add, clear-all and clear-one. */
  lemma UpdatersKeepIdsDistinct(prev: seq<Notification>, n: Option<Notification>, id: string)
    requires DistinctIds(prev)
    ensures DistinctIds(Added(prev, n))
    ensures DistinctIds(ClearedAll(prev))
    ensures DistinctIds(ClearedOne(prev, id))
  {
    AddKeepsIdsDistinct(prev, n);
    FilterKeepsIdsDistinct(prev, (x: Notification) => x.id != id);
  }

  /**
   * Clearing one id removes exactly the records with that id and keeps the
   * others in their order.
   */
  lemma ClearOneRemovesExactly(prev: seq<Notification>, id: string, other: seq<Notification>)
    ensures ClearedOne(prev + other, id) == ClearedOne(prev, id) + ClearedOne(other, id)
    ensures forall x :: multiset(ClearedOne(prev, id))[x] == if x.id != id then multiset(prev)[x] else 0
  {
    FilterConcat(prev, other, (n: Notification) => n.id != id);
    FilterCounts(prev, (n: Notification) => n.id != id);
  }

  /** Clearing an id that is not present leaves the list as it is. */
  lemma ClearAbsentIsIdentity(prev: seq<Notification>, id: string)
    requires !HasId(prev, id)
    ensures ClearedOne(prev, id) == prev
  {
  }

  // ---------------------------------------------------------------------------
  // Listener payloads

  /** The content of an incoming notification; `None` is a missing field. */
  datatype Content = Content(title: Option<string>, body: Option<string>, data: Json)

  /** `field || ''` on an optional string: the string itself, or "" when it is missing. */
  function TextOr(o: Option<string>): (t: string)
    ensures o.None? ==> t == ""
    ensures o.Some? ==> t == o.value
  {
    if o.Some? && o.value != [] then o.value else ""
  }

  /** The record built by the received-notification listener; `now` is the ISO timestamp. */
  function Received(identifier: string, content: Content, now: string): (n: Notification)
    ensures n.id == identifier && n.createdAt == now
    ensures content.title.None? ==> n.title == ""
    ensures content.body.None? ==> n.body == ""
    ensures content.title.Some? ==> n.title == content.title.value
    ensures content.body.Some? ==> n.body == content.body.value
    ensures !Truthy(content.data) ==> n.data == Obj([])
    ensures Truthy(content.data) ==> n.data == content.data
  {
    Notification(identifier, TextOr(content.title), TextOr(content.body), Or(content.data, Obj([])), now)
  }

  /** Where tapping a notification navigates. */
  datatype Route = DeviceScreen(mac: Json) | NotificationList

  /** The response listener: to `/device` with the payload's `mac` when it is truthy, else to `/notifications`. */
  function RouteFor(data: Json): (r: Route)
    ensures Truthy(Get(Or(data, Obj([])), "mac")) ==> r == DeviceScreen(Get(data, "mac"))
    ensures !Truthy(Get(data, "mac")) ==> r == NotificationList
  {
    var d := Or(data, Obj([]));
    if Truthy(Get(d, "mac")) then DeviceScreen(Get(d, "mac")) else NotificationList
  }

  // ---------------------------------------------------------------------------
  // Persisted form: JSON.stringify(notifications) / JSON.parse(raw)

  /** A record as `JSON.stringify` writes it: each of the five fields under its own key. */
  function ToJson(n: Notification): (v: Json)
    ensures v.Obj?
    ensures Get(v, "id") == Str(n.id) && Get(v, "title") == Str(n.title)
    ensures Get(v, "body") == Str(n.body) && Get(v, "data") == n.data
    ensures Get(v, "createdAt") == Str(n.createdAt)
  {
    var ms := [Member("id", Str(n.id)), Member("title", Str(n.title)), Member("body", Str(n.body)),
               Member("data", n.data), Member("createdAt", Str(n.createdAt))];
    LookupOfFive(ms[0], ms[1], ms[2], ms[3], ms[4], "id");
    LookupOfThree(ms[0], ms[1], ms[2], "id");
    LookupOfFive(ms[0], ms[1], ms[2], ms[3], ms[4], "title");
    LookupOfThree(ms[0], ms[1], ms[2], "title");
    LookupOfFive(ms[0], ms[1], ms[2], ms[3], ms[4], "body");
    LookupOfThree(ms[0], ms[1], ms[2], "body");
    LookupOfFive(ms[0], ms[1], ms[2], ms[3], ms[4], "data");
    LookupOfFive(ms[0], ms[1], ms[2], ms[3], ms[4], "createdAt");
    Obj(ms)
  }

  /**
   * A parsed element read back as a record: an object whose id, title, body
   * and createdAt are strings; every field is what the object holds under
   * its key.
   */
  function FromJson(v: Json): (r: Option<Notification>)
    ensures r.Some? <==> v.Obj? && Get(v, "id").Str? && Get(v, "title").Str? && Get(v, "body").Str? && Get(v, "createdAt").Str?
    ensures r.Some? ==> Get(v, "id") == Str(r.value.id) && Get(v, "title") == Str(r.value.title)
    ensures r.Some? ==> Get(v, "body") == Str(r.value.body) && Get(v, "createdAt") == Str(r.value.createdAt)
    ensures r.Some? ==> Get(v, "data") == r.value.data
  {
    var id := Get(v, "id");
    var title := Get(v, "title");
    var body := Get(v, "body");
    var createdAt := Get(v, "createdAt");
    if v.Obj? && id.Str? && title.Str? && body.Str? && createdAt.Str? then
      Some(Notification(id.s, title.s, body.s, Get(v, "data"), createdAt.s))
    else None
  }

  function ListToJson(list: seq<Notification>): (v: Json)
    ensures v.Arr? && |v.items| == |list|
    ensures forall k :: 0 <= k < |list| ==> v.items[k] == ToJson(list[k])
  {
    Arr(seq(|list|, k requires 0 <= k < |list| => ToJson(list[k])))
  }

  /** The records of a stored array, or `None` when some element is not a record. */
  function ListFromJson(v: Json): (r: Option<seq<Notification>>)
    ensures r.Some? ==> v.Arr? && |r.value| == |v.items|
  {
    if !v.Arr? then None
    else if forall k :: 0 <= k < |v.items| ==> FromJson(v.items[k]).Some? then
      Some(seq(|v.items|, k requires 0 <= k < |v.items| && FromJson(v.items[k]).Some? => FromJson(v.items[k]).value))
    else None
  }

  lemma RecordRoundTrip(n: Notification)
    ensures FromJson(ToJson(n)) == Some(n)
  {
  }

  /** What is persisted restores to the same log. */
  lemma ListRoundTrip(list: seq<Notification>)
    ensures ListFromJson(ListToJson(list)) == Some(list)
  {
    var v := ListToJson(list);
    forall k | 0 <= k < |list|
      ensures FromJson(v.items[k]) == Some(list[k])
    {
      RecordRoundTrip(list[k]);
    }
    var r := ListFromJson(v);
    assert r.Some?;
    assert r.value == list;
  }

  /** The persisted log in its stored form. */
  predicate StoredLog(items: map<string, Json>) {
    StorageKey in items ==> ListFromJson(items[StorageKey]).Some?
  }

  // ---------------------------------------------------------------------------
  // The provider

  /**
   * `NotificationProvider`: the `notifications` state and the storage it
   * persists to. Each update method is one state change followed by the
   * persist effect it triggers.
   */
  class NotificationProvider {
    var notifications: seq<Notification>
    const store: KeyValueStore

    /**
     * Mounting starts from the empty list. The persist effect runs on mount
     * too, so a `Persist` of `[]` follows; when the load's read fails, that
     * write replaces the stored log with `[]`.
     */
    constructor (store: KeyValueStore)
      ensures this.store == store && notifications == []
    {
      this.store := store;
      notifications := [];
    }

    /**
     * The load effect: a stored log replaces the state, and a read error (or
     * nothing stored) leaves the state as it is. A load that changes the
     * state triggers the persist effect, so a `Persist` follows that writes
     * the loaded list back.
     */
    method Load(readFails: bool)
      requires StoredLog(store.items)
      modifies this`notifications
      ensures readFails || StorageKey !in store.items ==> notifications == old(notifications)
      ensures !readFails && StorageKey in store.items ==> Some(notifications) == ListFromJson(store.items[StorageKey])
    {
      var raw := store.GetItem(StorageKey, readFails);
      if raw.Present? {
        notifications := ListFromJson(raw.value).value;
      }
    }

    /** The persist effect: the whole list is written; a write error is only logged. */
    method Persist(writeFails: bool)
      modifies store
      ensures store.items == if writeFails then old(store.items) else old(store.items)[StorageKey := ListToJson(notifications)]
      ensures StoredLog(old(store.items)) ==> StoredLog(store.items)
    {
      ListRoundTrip(notifications);
      var _ := store.SetItem(StorageKey, ListToJson(notifications), writeFails);
    }

    /** `addNotification(n)`; the persist effect runs only if the list changed. */
    method Add(n: Option<Notification>, writeFails: bool)
      modifies this`notifications, store
      ensures notifications == Added(old(notifications), n)
      ensures notifications == old(notifications) ==> store.items == old(store.items)
      ensures notifications != old(notifications) ==>
        store.items == if writeFails then old(store.items) else old(store.items)[StorageKey := ListToJson(notifications)]
    {
      var next := Added(notifications, n);
      if next != notifications {
        notifications := next;
        Persist(writeFails);
      }
    }

    /** `clearAllNotifications()`; the update always installs a fresh array, so it always persists. */
    method ClearAll(writeFails: bool)
      modifies this`notifications, store
      ensures notifications == []
      ensures store.items == if writeFails then old(store.items) else old(store.items)[StorageKey := ListToJson([])]
    {
      notifications := ClearedAll(notifications);
      Persist(writeFails);
    }

    /** `clearNotification(id)`; `filter` returns a fresh array, so it always persists. */
    method ClearOne(id: string, writeFails: bool)
      modifies this`notifications, store
      ensures notifications == ClearedOne(old(notifications), id)
      ensures store.items == if writeFails then old(store.items) else old(store.items)[StorageKey := ListToJson(notifications)]
    {
      notifications := ClearedOne(notifications, id);
      Persist(writeFails);
    }
  }

  /** After a successful persist, a load restores exactly the current list. */
  lemma PersistThenLoadRestores(items: map<string, Json>, list: seq<Notification>)
    ensures ListFromJson(items[StorageKey := ListToJson(list)][StorageKey]) == Some(list)
  {
    ListRoundTrip(list);
  }
}
