/**
 * The status screen: it polls `/api/v1/status` once at mount and then every
 * 5000 ms, keeps the last normalised list, and renders it in device order.
 * A `mounted` flag, cleared by the effect's cleanup together with the
 * interval, stops late responses from touching the list.
 */
module StatusScreen {
  import opened Common
  import opened Text
  import opened Js
  import opened Http
  import opened Sorting
  import opened ApiConfig
  import opened ListShape
  import opened DeviceOrder

  const PollIntervalMs := 5000
  const TypeOrder := ["IPM"]
  const LocationOrder := ["Production line"]

  /** `${base}/api/v1/status`, with `?location=<encoded>` when a location is selected. */
  function StatusUrl(cfg: BuildConfig, selectedLocation: Option<string>): (url: string)
    ensures selectedLocation.None? || selectedLocation.value == [] ==> url == DefaultApiUrl(cfg) + "/api/v1/status"
    ensures selectedLocation.Some? && selectedLocation.value != [] ==>
      url == DefaultApiUrl(cfg) + "/api/v1/status" + "?location=" + EncodeUriComponent(selectedLocation.value)
  {
    var base := DefaultApiUrl(cfg) + "/api/v1/status";
    if selectedLocation.Some? && selectedLocation.value != [] then
      base + "?location=" + EncodeUriComponent(selectedLocation.value)
    else base
  }

  /** The encoded location cannot add a query parameter or a fragment of its own. */
  lemma LocationStaysOneParameter(cfg: BuildConfig, location: string)
    requires location != []
    ensures var url := StatusUrl(cfg, Some(location));
      var prefix := DefaultApiUrl(cfg) + "/api/v1/status" + "?location=";
      && prefix <= url
      && forall k :: |prefix| <= k < |url| ==> url[k] != '&' && url[k] != '#' && url[k] != '='
  {
    var prefix := DefaultApiUrl(cfg) + "/api/v1/status" + "?location=";
    var enc := EncodeUriComponent(location);
    var url := StatusUrl(cfg, Some(location));
    assert url == prefix + enc;
    forall k | |prefix| <= k < |url|
      ensures url[k] != '&' && url[k] != '#' && url[k] != '='
    {
      assert url[k] == enc[k - |prefix|];
    }
  }

  class Screen {
    /** The `devices` state. */
    var devices: seq<Json>
    /** The effect's `mounted` flag. */
    var mounted: bool
    /** Whether the 5000 ms interval is still registered. */
    var polling: bool
    /** Requests issued and not yet settled. */
    var inFlight: nat
    /** Every request issued so far, oldest first. */
    var requests: seq<Request>
    /** Interval ticks that fired a fetch. */
    ghost var ticks: nat
    const url: string

    ghost predicate Valid()
      reads this
    {
      && (polling <==> mounted)
      && |requests| == 1 + ticks
      && inFlight <= |requests|
      && forall k :: 0 <= k < |requests| ==> requests[k] == Request(GET, url, None)
    }

    /** Mounting runs the effect: one fetch straight away, and the interval is registered. */
    constructor (cfg: BuildConfig)
      ensures Valid()
      ensures url == StatusUrl(cfg, None) && url == DefaultApiUrl(cfg) + "/api/v1/status"
      ensures devices == [] && mounted && polling
      ensures requests == [Request(GET, url, None)] && inFlight == 1
    {
      url := StatusUrl(cfg, None);
      devices := [];
      mounted := true;
      polling := true;
      requests := [Request(GET, StatusUrl(cfg, None), None)];
      inFlight := 1;
      ticks := 0;
    }

    /** An interval tick: one more fetch while the interval is registered, nothing after cleanup. */
    method Tick()
      requires Valid()
      modifies this`inFlight, this`requests, this`ticks
      ensures Valid()
      ensures requests == old(requests) + (if old(polling) then [Request(GET, url, None)] else [])
      ensures inFlight == old(inFlight) + (if old(polling) then 1 else 0)
    {
      if polling {
        requests := requests + [Request(GET, url, None)];
        inFlight := inFlight + 1;
        ticks := ticks + 1;
      }
    }

    /**
     * One request settles: while mounted the list becomes the normalised data
     * (or `[]` on failure); after cleanup nothing changes.
     */
    method Respond(resp: Response)
      requires Valid() && inFlight > 0
      modifies this`devices, this`inFlight
      ensures Valid()
      ensures inFlight == old(inFlight) - 1
      ensures devices == if old(mounted) then PollResult(resp, "devices") else old(devices)
    {
      inFlight := inFlight - 1;
      if mounted {
        devices := PollResult(resp, "devices");
      }
    }

    /** The effect's cleanup: `mounted = false` and `clearInterval`. */
    method Unmount()
      requires Valid()
      modifies this`mounted, this`polling
      ensures Valid()
      ensures !mounted && !polling
    {
      mounted := false;
      polling := false;
    }

    /**
     * The rendered list, `sortDevices(devices, ['IPM'], ['Production line'])`:
     * the same devices, in device order (see `IpmFirst` and
     * `ProductionLineFirst` for what that order puts first), or `None` when
     * the sort throws on a `null` device and the render fails.
     */
    function Ordered(): (r: Option<seq<Json>>)
      reads this
      ensures r.None? <==> |devices| >= 2 && SomeNullish(devices)
      ensures r.Some? ==> multiset(r.value) == multiset(devices)
      ensures r.Some? ==> Sorted(r.value, Comparator(TypeOrder, LocationOrder))
    {
      SortDevices(devices, TypeOrder, LocationOrder)
    }
  }

  /** In the status view every IPM device is listed before every device of another type. */
  lemma IpmFirst(devices: seq<Json>, r: seq<Json>, i: int, j: int)
    requires SortDevices(devices, TypeOrder, LocationOrder) == Some(r)
    requires 0 <= i < j < |r| && TypeKey(r[j]) == "IPM"
    ensures TypeKey(r[i]) == "IPM"
  {
    PriorityTypeFirst(devices, "IPM", LocationOrder, r, i, j);
  }

  /** Within one type, the production line's devices are listed first. */
  lemma ProductionLineFirst(devices: seq<Json>, r: seq<Json>, i: int, j: int)
    requires SortDevices(devices, TypeOrder, LocationOrder) == Some(r)
    requires 0 <= i < j < |r| && TypeKey(r[i]) == TypeKey(r[j]) && LocationKey(r[j]) == "Production line"
    ensures LocationKey(r[i]) == "Production line"
  {
    PriorityLocationFirst(devices, TypeOrder, "Production line", r, i, j);
  }
}
