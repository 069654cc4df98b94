/**
 * The per-installation mute list: the server holds it, keyed by the
 * installation id, and the client keeps a last-known-good copy under
 * `@muted_machines_cache` (cache-aside). Reads fall back to the copy when
 * the server fails; mutations refresh the list and then rewrite the copy.
 */
module MuteService {
  import opened Common
  import opened Text
  import opened Js
  import opened Storage
  import opened ApiConfig
  import opened Identity
  import opened Http

  const MutedCacheKey := "@muted_machines_cache"

  // ---------------------------------------------------------------------------
  // The cached list as stored JSON

  function ListJson(l: seq<string>): (v: Json)
    ensures v.Arr? && |v.items| == |l|
    ensures forall k :: 0 <= k < |l| ==> v.items[k] == Str(l[k])
  {
    Arr(seq(|l|, k requires 0 <= k < |l| => Str(l[k])))
  }

  predicate IsTextList(v: Json) {
    v.Arr? && forall k :: 0 <= k < |v.items| ==> v.items[k].Str?
  }

  function ListOf(v: Json): (l: seq<string>)
    requires IsTextList(v)
    ensures |l| == |v.items| && forall k :: 0 <= k < |l| ==> v.items[k] == Str(l[k])
  {
    seq(|v.items|, k requires 0 <= k < |v.items| => v.items[k].s)
  }

  /** Writing a list and parsing it back gives the same list. */
  lemma ListRoundTrip(l: seq<string>)
    ensures IsTextList(ListJson(l)) && ListOf(ListJson(l)) == l
  {
  }

  /** The shape the client's own writes give the store: strings under the id key, a string list in the cache. */
  predicate StoreShape(items: map<string, Json>) {
    IdItemIsText(items) && (MutedCacheKey in items ==> IsTextList(items[MutedCacheKey]))
  }

  /** `cached ? JSON.parse(cached) : []` after a successful read. */
  function CachedList(items: map<string, Json>): (l: seq<string>)
    requires StoreShape(items)
    ensures MutedCacheKey !in items ==> l == []
    ensures MutedCacheKey in items ==> ListJson(l) == items[MutedCacheKey]
  {
    if MutedCacheKey in items then
      var l := ListOf(items[MutedCacheKey]);
      assert ListJson(l).items == items[MutedCacheKey].items;
      l
    else []
  }

  // ---------------------------------------------------------------------------
  // Oracles

  /**
   * The GET of the mute list: it throws (network or body error), is not ok, or is ok
   * with `mutedMachines`, taken to be absent or falsy (None) or an array of strings.
   */
  datatype ListReply = ListThrew | ListNotOk | ListOk(muted: Option<seq<string>>)

  /** The POST or DELETE of one mute. */
  datatype MutationReply = MutationThrew | MutationNotOk | MutationOk

  /**
   * Storage outcomes inside `getMutedMachines`: whether caching the server
   * list fails, whether the read on the non-ok path fails, and whether the
   * read in the catch block fails.
   */
  datatype CacheIo = CacheIo(writeFails: bool, readFails: bool, retryReadFails: bool)

  /** Clock and storage outcomes for the `getDeviceId()` and `getApiUrl()` calls a request starts with. */
  datatype Lookups = Lookups(now: nat, idReadFails: bool, idWriteFails: bool, urlReadFails: bool)

  /** The installation's fixed facts: device information and build-time URLs. */
  datatype Client = Client(info: DeviceInfo, cfg: BuildConfig)

  // ---------------------------------------------------------------------------
  // getMutedMachines

  datatype Located = Located(url: string, items: map<string, Json>)

  /** `${apiUrl}/devices/${deviceId}/muted-machines` and the store after resolving both parts. */
  function ListEndpoint(items: map<string, Json>, client: Client, lk: Lookups): (r: Located)
    ensures StoreShape(items) ==> StoreShape(r.items)
    ensures forall key :: key != DeviceIdKey ==> (key in r.items <==> key in items) && (key in items ==> r.items[key] == items[key])
  {
    var o := IdFor(items, client.info, lk.now, lk.idReadFails, lk.idWriteFails);
    Located(ResolvedUrl(o.items, client.cfg, lk.urlReadFails) + "/devices/" + o.id + "/muted-machines", o.items)
  }

  datatype ListOutcome = ListOutcome(muted: seq<string>, items: map<string, Json>)

  /** The list `getMutedMachines` returns once its URL is known, and the store afterwards. */
  function ListStep(items: map<string, Json>, reply: ListReply, io: CacheIo): (r: ListOutcome)
    requires StoreShape(items)
    ensures StoreShape(r.items)
  {
    match reply
    case ListOk(m) =>
      var l := m.GetOr([]);
      ListRoundTrip(l);
      if io.writeFails then ListOutcome((if io.retryReadFails then [] else CachedList(items)), items)
      else ListOutcome(l, items[MutedCacheKey := ListJson(l)])
    case ListNotOk =>
      if io.readFails then ListOutcome((if io.retryReadFails then [] else CachedList(items)), items)
      else ListOutcome(CachedList(items), items)
    case ListThrew => ListOutcome((if io.retryReadFails then [] else CachedList(items)), items)
  }

  /** `getMutedMachines()` as a whole. */
  function MutedList(items: map<string, Json>, client: Client, lk: Lookups, reply: ListReply, io: CacheIo): (r: ListOutcome)
    requires StoreShape(items)
    ensures StoreShape(r.items)
  {
    ListStep(ListEndpoint(items, client, lk).items, reply, io)
  }

  method GetMutedMachines(store: KeyValueStore, client: Client, lk: Lookups, reply: ListReply, io: CacheIo)
      returns (muted: seq<string>, request: Request)
    requires StoreShape(store.items)
    modifies store
    ensures request == Request(GET, ListEndpoint(old(store.items), client, lk).url, None)
    ensures ListOutcome(muted, store.items) == MutedList(old(store.items), client, lk, reply, io)
    ensures StoreShape(store.items)
  {
    var deviceId := GetDeviceId(store, client.info, lk.now, lk.idReadFails, lk.idWriteFails);
    var apiUrl := GetApiUrl(store, client.cfg, lk.urlReadFails);
    request := Request(GET, apiUrl + "/devices/" + deviceId + "/muted-machines", None);
    assert store.items == ListEndpoint(old(store.items), client, lk).items;
    muted := ListFromServer(store, reply, io);
  }

  /** `getMutedMachines()` once its URL is known: the server's list cached, or the cache as fallback. */
  method ListFromServer(store: KeyValueStore, reply: ListReply, io: CacheIo) returns (muted: seq<string>)
    requires StoreShape(store.items)
    modifies store
    ensures ListOutcome(muted, store.items) == ListStep(old(store.items), reply, io)
  {
    match reply {
      case ListOk(m) =>
        muted := m.GetOr([]);
        ListRoundTrip(muted);
        var ok := store.SetItem(MutedCacheKey, ListJson(muted), io.writeFails);
        if !ok {
          muted := ReadCacheAfterError(store, io.retryReadFails);
        }
      case ListNotOk =>
        var cached := store.GetItem(MutedCacheKey, io.readFails);
        if cached.ReadFailed? {
          muted := ReadCacheAfterError(store, io.retryReadFails);
        } else {
          muted := if cached.Present? then ListOf(cached.value) else [];
        }
      case ListThrew =>
        muted := ReadCacheAfterError(store, io.retryReadFails);
    }
  }

  /** The catch block of `getMutedMachines`: read the cache once more, `[]` if that fails as well. */
  method ReadCacheAfterError(store: KeyValueStore, readFails: bool) returns (muted: seq<string>)
    requires StoreShape(store.items)
    ensures muted == if readFails then [] else CachedList(store.items)
  {
    var cached := store.GetItem(MutedCacheKey, readFails);
    muted := if cached.Present? then ListOf(cached.value) else [];
  }

  /** An ok reply is returned and becomes the cache, unless caching it fails. */
  lemma OkReplyIsCached(items: map<string, Json>, m: Option<seq<string>>, io: CacheIo)
    requires StoreShape(items) && !io.writeFails
    ensures ListStep(items, ListOk(m), io).muted == m.GetOr([])
    ensures CachedList(ListStep(items, ListOk(m), io).items) == m.GetOr([])
  {
    ListRoundTrip(m.GetOr([]));
  }

  /** A reply without `mutedMachines` counts as the empty list. */
  lemma MissingFieldIsEmpty(items: map<string, Json>, io: CacheIo)
    requires StoreShape(items) && !io.writeFails
    ensures ListStep(items, ListOk(None), io).muted == []
  {
  }

  /**
   * A non-ok reply or an exception yields the cached list, or `[]` when none
   * can be read, and the cache is not written.
   */
  lemma FailureFallsBackToCache(items: map<string, Json>, reply: ListReply, io: CacheIo)
    requires StoreShape(items) && !reply.ListOk?
    ensures ListStep(items, reply, io).items == items
    ensures var l := ListStep(items, reply, io).muted;
      l == CachedList(items) || (l == [] && (io.readFails || reply.ListThrew?) && io.retryReadFails)
  {
  }

  /**
   * Cache-aside consistency: whatever `getMutedMachines` returns is the cache
   * afterwards, except for the `[]` given when the cache could not be read.
   */
  lemma ReturnedListIsCached(items: map<string, Json>, reply: ListReply, io: CacheIo)
    requires StoreShape(items)
    ensures var r := ListStep(items, reply, io);
      r.muted == CachedList(r.items) || r.muted == []
  {
    if reply.ListOk? && !io.writeFails {
      ListRoundTrip(reply.muted.GetOr([]));
    }
  }

  /** Only the cache key is ever written by the list step. */
  lemma ListStepTouchesOnlyCache(items: map<string, Json>, reply: ListReply, io: CacheIo, key: string)
    requires StoreShape(items) && key != MutedCacheKey
    ensures var after := ListStep(items, reply, io).items;
      (key in after <==> key in items) && (key in items ==> after[key] == items[key])
  {
  }

  // ---------------------------------------------------------------------------
  // muteMachine, unmuteMachine, isMachineMuted

  /**
   * All external outcomes one mutation sees: the lookups and reply of the
   * mutation itself, those of the list refresh after it, and whether the
   * final cache write fails.
   */
  datatype MutationOracle = MutationOracle(
    first: Lookups, mutation: MutationReply, second: Lookups, list: ListReply, io: CacheIo, saveFails: bool)

  datatype MutationOutcome = MutationOutcome(success: bool, items: map<string, Json>, requests: seq<Request>)

  /** The value under the cache key, if any: "the cache is unchanged" compares these. */
  function CacheEntry(items: map<string, Json>): Option<Json> {
    if MutedCacheKey in items then Some(items[MutedCacheKey]) else None
  }

  /** `muteMachine(machineId)`. */
  function MuteOutcome(items: map<string, Json>, client: Client, machineId: string, o: MutationOracle): (r: MutationOutcome)
    requires StoreShape(items)
    ensures StoreShape(r.items)
  {
    var at := ListEndpoint(items, client, o.first);
    var post := Request(POST, at.url, Some(Obj([Member("machineId", Str(machineId))])));
    if !o.mutation.MutationOk? then MutationOutcome(false, at.items, [post])
    else
      var refresh := MutedList(at.items, client, o.second, o.list, o.io);
      var get := Request(GET, ListEndpoint(at.items, client, o.second).url, None);
      if machineId in refresh.muted then MutationOutcome(true, refresh.items, [post, get])
      else if o.saveFails then MutationOutcome(false, refresh.items, [post, get])
      else
        ListRoundTrip(refresh.muted + [machineId]);
        MutationOutcome(true, refresh.items[MutedCacheKey := ListJson(refresh.muted + [machineId])], [post, get])
  }

  method MuteMachine(store: KeyValueStore, client: Client, machineId: string, o: MutationOracle)
      returns (success: bool, requests: seq<Request>)
    requires StoreShape(store.items)
    modifies store
    ensures MutationOutcome(success, store.items, requests) == MuteOutcome(old(store.items), client, machineId, o)
    ensures StoreShape(store.items)
  {
    var deviceId := GetDeviceId(store, client.info, o.first.now, o.first.idReadFails, o.first.idWriteFails);
    var apiUrl := GetApiUrl(store, client.cfg, o.first.urlReadFails);
    var post := Request(POST, apiUrl + "/devices/" + deviceId + "/muted-machines",
                        Some(Obj([Member("machineId", Str(machineId))])));
    if !o.mutation.MutationOk? {
      return false, [post];
    }
    var muted, get := GetMutedMachines(store, client, o.second, o.list, o.io);
    requests := [post, get];
    if machineId in muted {
      return true, requests;
    }
    ListRoundTrip(muted + [machineId]);
    success := store.SetItem(MutedCacheKey, ListJson(muted + [machineId]), o.saveFails);
  }

  /** `unmuteMachine(machineId)`. */
  function UnmuteOutcome(items: map<string, Json>, client: Client, machineId: string, o: MutationOracle): (r: MutationOutcome)
    requires StoreShape(items)
    ensures StoreShape(r.items)
  {
    var at := ListEndpoint(items, client, o.first);
    var delete := Request(DELETE, at.url + "/" + machineId, None);
    if !o.mutation.MutationOk? then MutationOutcome(false, at.items, [delete])
    else
      var refresh := MutedList(at.items, client, o.second, o.list, o.io);
      var get := Request(GET, ListEndpoint(at.items, client, o.second).url, None);
      var filtered := Filter(refresh.muted, (x: string) => x != machineId);
      ListRoundTrip(filtered);
      if o.saveFails then MutationOutcome(false, refresh.items, [delete, get])
      else MutationOutcome(true, refresh.items[MutedCacheKey := ListJson(filtered)], [delete, get])
  }

  method UnmuteMachine(store: KeyValueStore, client: Client, machineId: string, o: MutationOracle)
      returns (success: bool, requests: seq<Request>)
    requires StoreShape(store.items)
    modifies store
    ensures MutationOutcome(success, store.items, requests) == UnmuteOutcome(old(store.items), client, machineId, o)
    ensures StoreShape(store.items)
  {
    var deviceId := GetDeviceId(store, client.info, o.first.now, o.first.idReadFails, o.first.idWriteFails);
    var apiUrl := GetApiUrl(store, client.cfg, o.first.urlReadFails);
    var delete := Request(DELETE, apiUrl + "/devices/" + deviceId + "/muted-machines" + "/" + machineId, None);
    if !o.mutation.MutationOk? {
      return false, [delete];
    }
    var muted, get := GetMutedMachines(store, client, o.second, o.list, o.io);
    requests := [delete, get];
    var filtered := Filter(muted, (x: string) => x != machineId);
    ListRoundTrip(filtered);
    success := store.SetItem(MutedCacheKey, ListJson(filtered), o.saveFails);
  }

  /** `isMachineMuted(machineId)`: membership in what `getMutedMachines()` returns (which never throws). */
  method IsMachineMuted(store: KeyValueStore, client: Client, machineId: string, lk: Lookups, reply: ListReply, io: CacheIo)
      returns (muted: bool)
    requires StoreShape(store.items)
    modifies store
    ensures muted <==> machineId in MutedList(old(store.items), client, lk, reply, io).muted
    ensures store.items == MutedList(old(store.items), client, lk, reply, io).items
    ensures StoreShape(store.items)
  {
    var list, _ := GetMutedMachines(store, client, lk, reply, io);
    muted := machineId in list;
  }

  // ---------------------------------------------------------------------------
  // Properties of the mutations

  /** A failed POST or DELETE reports failure, sends nothing else and leaves the cache alone. */
  lemma FailedMutationLeavesCache(items: map<string, Json>, client: Client, machineId: string, o: MutationOracle)
    requires StoreShape(items) && !o.mutation.MutationOk?
    ensures !MuteOutcome(items, client, machineId, o).success
    ensures CacheEntry(MuteOutcome(items, client, machineId, o).items) == CacheEntry(items)
    ensures |MuteOutcome(items, client, machineId, o).requests| == 1
    ensures !UnmuteOutcome(items, client, machineId, o).success
    ensures CacheEntry(UnmuteOutcome(items, client, machineId, o).items) == CacheEntry(items)
    ensures |UnmuteOutcome(items, client, machineId, o).requests| == 1
  {
  }

  /**
   * After a successful mute the cached list contains the id. It was pushed
   * once onto the refreshed list when that lacked it, and not pushed again
   * when the refreshed list already had it.
   */
  lemma MuteSuccessCachesId(items: map<string, Json>, client: Client, machineId: string, o: MutationOracle)
    requires StoreShape(items)
    requires MuteOutcome(items, client, machineId, o).success
    ensures var cached := CachedList(MuteOutcome(items, client, machineId, o).items);
      var refreshed := MutedList(ListEndpoint(items, client, o.first).items, client, o.second, o.list, o.io).muted;
      && machineId in cached
      && (machineId !in refreshed ==> cached == refreshed + [machineId] && Count(cached, machineId) == 1)
      && (machineId in refreshed ==> cached == refreshed)
  {
    var at := ListEndpoint(items, client, o.first);
    var refresh := MutedList(at.items, client, o.second, o.list, o.io);
    ReturnedListIsCached(ListEndpoint(at.items, client, o.second).items, o.list, o.io);
    ListRoundTrip(refresh.muted + [machineId]);
    if machineId !in refresh.muted {
      calc {
        Count(refresh.muted + [machineId], machineId);
        multiset(refresh.muted + [machineId])[machineId];
        multiset(refresh.muted)[machineId] + 1;
        1;
      }
    }
  }

  /** The server may accept a mute that is still reported as failed: the final cache write failed. */
  lemma MuteFailsOnCacheWrite(items: map<string, Json>, client: Client, machineId: string, o: MutationOracle)
    requires StoreShape(items) && o.mutation.MutationOk? && o.saveFails
    requires machineId !in MutedList(ListEndpoint(items, client, o.first).items, client, o.second, o.list, o.io).muted
    ensures !MuteOutcome(items, client, machineId, o).success
    ensures |MuteOutcome(items, client, machineId, o).requests| == 2
  {
  }

  /**
   * After a successful unmute the cache is the refreshed list with every
   * occurrence of the id removed and the others in their order.
   */
  lemma UnmuteSuccessRemovesId(items: map<string, Json>, client: Client, machineId: string, o: MutationOracle)
    requires StoreShape(items)
    requires UnmuteOutcome(items, client, machineId, o).success
    ensures var cached := CachedList(UnmuteOutcome(items, client, machineId, o).items);
      var refreshed := MutedList(ListEndpoint(items, client, o.first).items, client, o.second, o.list, o.io).muted;
      && cached == Filter(refreshed, (x: string) => x != machineId)
      && machineId !in cached
      && forall x :: x != machineId ==> Count(cached, x) == Count(refreshed, x)
  {
    var keep := (x: string) => x != machineId;
    var refreshed := MutedList(ListEndpoint(items, client, o.first).items, client, o.second, o.list, o.io).muted;
    ListRoundTrip(Filter(refreshed, keep));
    FilterCounts(refreshed, keep);
  }
}
