/**
 * The device management screen: the status list polled every 5000 ms while
 * mounted, refetched whenever the screen regains focus, and pruned locally
 * when a card reports a deletion. Unlike the status screen, responses are
 * applied even after the effect's cleanup: only the issuing of requests is
 * guarded by `mounted`. The file calls `useCallback` and `useFocusEffect`
 * without importing them (app/manageDevices.jsx:2); `Focus` models what
 * those hooks are evidently meant to do, one fetch on every focus.
 */
module ManageDevices {
  import opened Common
  import opened Js
  import opened Http
  import opened Sorting
  import opened ApiConfig
  import opened ListShape
  import opened DeviceOrder
  import StatusScreen

  const TypeOrder := ["IPM"]
  const LocationOrder := ["Production line"]

  /** `d.mac !== mac`, the test `handleDeleted` keeps a device by. */
  predicate KeepsDevice(mac: Json, d: Json) {
    Get(d, "mac") != mac
  }

  /**
   * `list.filter(d => d.mac !== mac)`: the devices with another MAC, or
   * `None` when the test throws, which it does on any `null` or `undefined`
   * element, since `filter` visits every one.
   */
  function WithoutMac(devices: seq<Json>, mac: Json): (r: Option<seq<Json>>)
    ensures r.None? <==> SomeNullish(devices)
    ensures r.Some? ==> forall k :: 0 <= k < |r.value| ==> Get(r.value[k], "mac") != mac
    ensures r.Some? ==> forall d :: multiset(r.value)[d] == if Get(d, "mac") != mac then multiset(devices)[d] else 0
  {
    if SomeNullish(devices) then None
    else
      FilterCounts(devices, d => KeepsDevice(mac, d));
      Some(Filter(devices, d => KeepsDevice(mac, d)))
  }

  /** Removing the same MAC twice removes nothing more. */
  lemma {:induction false} WithoutMacIdempotent(devices: seq<Json>, mac: Json)
    requires WithoutMac(devices, mac).Some?
    ensures WithoutMac(WithoutMac(devices, mac).value, mac) == WithoutMac(devices, mac)
  {
    var r := Filter(devices, d => KeepsDevice(mac, d));
    assert forall k :: 0 <= k < |r| ==> KeepsDevice(mac, r[k]);
    assert !SomeNullish(r) by {
      forall k | 0 <= k < |r|
        ensures !Nullish(r[k])
      {
        assert r[k] in multiset(r);
      }
    }
  }

  /** Removing a MAC no device carries leaves the list as it was, unless an element makes the test throw. */
  lemma WithoutAbsentMacIsIdentity(devices: seq<Json>, mac: Json)
    requires forall k :: 0 <= k < |devices| ==> Get(devices[k], "mac") != mac
    ensures WithoutMac(devices, mac) == if SomeNullish(devices) then None else Some(devices)
  {
    assert forall k :: 0 <= k < |devices| ==> KeepsDevice(mac, devices[k]);
  }

  class Screen {
    /** The `devices` state. */
    var devices: seq<Json>
    /** The effect's `mounted` flag. */
    var mounted: bool
    /** Whether the 5000 ms interval is still registered. */
    var polling: bool
    /** Requests issued and not yet settled. */
    var inFlight: nat
    /** Every request issued so far, oldest first. */
    var requests: seq<Request>
    const url: string

    ghost predicate Valid()
      reads this
    {
      && (polling <==> mounted)
      && |requests| >= 1
      && inFlight <= |requests|
      && forall k :: 0 <= k < |requests| ==> requests[k] == Request(GET, url, None)
    }

    /** Mounting: the effect's `wrappedFetch()` issues the first request and the interval starts. */
    constructor (cfg: BuildConfig)
      ensures Valid()
      ensures url == StatusScreen.StatusUrl(cfg, None)
      ensures devices == [] && mounted && polling
      ensures requests == [Request(GET, url, None)] && inFlight == 1
    {
      url := StatusScreen.StatusUrl(cfg, None);
      devices := [];
      mounted := true;
      polling := true;
      requests := [Request(GET, StatusScreen.StatusUrl(cfg, None), None)];
      inFlight := 1;
    }

    /** An interval tick: `wrappedFetch` fetches only while `mounted`. */
    method Tick()
      requires Valid()
      modifies this`inFlight, this`requests
      ensures Valid()
      ensures requests == old(requests) + (if old(mounted) then [Request(GET, url, None)] else [])
      ensures inFlight == old(inFlight) + (if old(mounted) then 1 else 0)
    {
      if mounted {
        requests := requests + [Request(GET, url, None)];
        inFlight := inFlight + 1;
      }
    }

    /** The focus effect: one unguarded fetch each time the screen comes into focus. */
    method Focus()
      requires Valid()
      modifies this`inFlight, this`requests
      ensures Valid()
      ensures requests == old(requests) + [Request(GET, url, None)]
      ensures inFlight == old(inFlight) + 1
    {
      requests := requests + [Request(GET, url, None)];
      inFlight := inFlight + 1;
    }

    /** A request settles: the list becomes the normalised data, or `[]` on failure, mounted or not. */
    method Respond(resp: Response)
      requires Valid() && inFlight > 0
      modifies this`devices, this`inFlight
      ensures Valid()
      ensures inFlight == old(inFlight) - 1
      ensures devices == PollResult(resp, "devices")
    {
      inFlight := inFlight - 1;
      devices := PollResult(resp, "devices");
    }

    /**
     * `handleDeleted(mac)`: the card's deletion is reflected without a
     * refetch. When the updater throws (`threw`), the list is not replaced.
     */
    method HandleDeleted(mac: Json) returns (threw: bool)
      requires Valid()
      modifies this`devices
      ensures Valid()
      ensures threw <==> WithoutMac(old(devices), mac).None?
      ensures devices == if threw then old(devices) else WithoutMac(old(devices), mac).value
    {
      var r := WithoutMac(devices, mac);
      threw := r.None?;
      if r.Some? {
        devices := r.value;
      }
    }

    /** The effect's cleanup. */
    method Unmount()
      requires Valid()
      modifies this`mounted, this`polling
      ensures Valid()
      ensures !mounted && !polling
    {
      mounted := false;
      polling := false;
    }

    /** The rendered list, in the same device order as the status screen, or `None` when the sort throws. */
    function Ordered(): (r: Option<seq<Json>>)
      reads this
      ensures r.None? <==> |devices| >= 2 && SomeNullish(devices)
      ensures r.Some? ==> multiset(r.value) == multiset(devices)
      ensures r.Some? ==> Sorted(r.value, Comparator(TypeOrder, LocationOrder))
    {
      SortDevices(devices, TypeOrder, LocationOrder)
    }
  }
}
