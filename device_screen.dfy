/**
 * The device detail screen: the mute toggle for the device's MAC, the
 * graph's time range (restored from and saved to `graph_time_range`), and
 * the power series fetched for the MAC and range, sorted by date.
 */
module DeviceScreen {
  import opened Common
  import opened Text
  import opened Js
  import opened Http
  import opened Sorting
  import opened Storage
  import opened ApiConfig
  import opened ListShape
  import opened MuteService
  import opened Ui

  const GraphRangeKey := "graph_time_range"
  const DefaultRange := "3h"
  const DefaultBucket := "1m"

  /** One entry of `TIME_OPTIONS`. */
  datatype TimeOption = TimeOption(title: string, value: string, bucket: string)

  const TimeOptions: seq<TimeOption> := [
    TimeOption("Last 5 minutes", "5m", "10s"),
    TimeOption("Last 10 minutes", "10m", "10s"),
    TimeOption("Last 30 minutes", "30m", "20s"),
    TimeOption("Last hour", "1h", "30s"),
    TimeOption("Last 3 hours", "3h", "1m"),
    TimeOption("Last 6 hours", "6h", "2m"),
    TimeOption("Last 12 hours", "12h", "5m"),
    TimeOption("Last 24 hours", "24h", "10m")
  ]

  /** `options.find(o => o.value === value)`: the first option with that value. */
  function FindOption(options: seq<TimeOption>, value: string): (r: Option<TimeOption>)
    ensures r.None? <==> forall k :: 0 <= k < |options| ==> options[k].value != value
    ensures r.Some? ==> exists k :: (0 <= k < |options| && options[k] == r.value && r.value.value == value
      && forall j :: 0 <= j < k ==> options[j].value != value)
  {
    if options == [] then None
    else if options[0].value == value then Some(options[0])
    else
      var r := FindOption(options[1..], value);
      assert r.Some? ==> exists k :: (0 <= k < |options[1..]| && options[1..][k] == r.value && r.value.value == value
        && forall j :: 0 <= j < k ==> options[1..][j].value != value);
      r
  }

  /** No two options share a value. */
  predicate DistinctValues(options: seq<TimeOption>) {
    forall i, j :: 0 <= i < j < |options| ==> options[i].value != options[j].value
  }

  lemma TimeOptionValuesDistinct()
    ensures DistinctValues(TimeOptions)
  {
    var vs := seq(|TimeOptions|, k requires 0 <= k < |TimeOptions| => TimeOptions[k].value);
    assert vs == ["5m", "10m", "30m", "1h", "3h", "6h", "12h", "24h"];
  }

  /** With distinct values, each option is the one found for its own value. */
  lemma {:induction false} FoundByItsValue(options: seq<TimeOption>, k: int)
    requires DistinctValues(options) && 0 <= k < |options|
    ensures FindOption(options, options[k].value) == Some(options[k])
  {
    if k > 0 {
      assert options[0].value != options[k].value;
      FoundByItsValue(options[1..], k - 1);
    }
  }

  lemma OptionFoundByItsValue(k: int)
    requires 0 <= k < |TimeOptions|
    ensures FindOption(TimeOptions, TimeOptions[k].value) == Some(TimeOptions[k])
  {
    TimeOptionValuesDistinct();
    FoundByItsValue(TimeOptions, k);
  }

  /** The default range is one of the options, with the default bucket. */
  lemma DefaultIsAnOption()
    ensures FindOption(TimeOptions, DefaultRange) == Some(TimeOption("Last 3 hours", "3h", "1m"))
  {
    OptionFoundByItsValue(4);
  }

  /**
   * The range and bucket after the restore effect: a non-empty saved value
   * becomes the range, and the bucket follows it only when an option
   * matches; a failed or empty read changes nothing.
   */
  function Restored(saved: Read, timeRange: string, bucket: string): (r: (string, string))
    ensures !(saved.Present? && saved.value.Str? && saved.value.s != []) ==> r == (timeRange, bucket)
    ensures saved.Present? && saved.value.Str? && saved.value.s != [] ==>
      r.0 == saved.value.s
      && r.1 == (if FindOption(TimeOptions, saved.value.s).Some? then FindOption(TimeOptions, saved.value.s).value.bucket else bucket)
  {
    if saved.Present? && saved.value.Str? && saved.value.s != [] then
      var opt := FindOption(TimeOptions, saved.value.s);
      (saved.value.s, if opt.Some? then opt.value.bucket else bucket)
    else (timeRange, bucket)
  }

  /** A range chosen in the dropdown and saved is restored with its own bucket on the next visit. */
  lemma SelectedRangeIsRestored(items: map<string, Json>, k: int, timeRange: string, bucket: string)
    requires 0 <= k < |TimeOptions|
    ensures Restored(ReadOf(items[GraphRangeKey := Str(TimeOptions[k].value)], GraphRangeKey, false), timeRange, bucket)
      == (TimeOptions[k].value, TimeOptions[k].bucket)
  {
    OptionFoundByItsValue(k);
    assert TimeOptions[k].value != [] by {
      assert |TimeOptions[k].value| >= 2;
    }
  }

  // ---------------------------------------------------------------------------
  // The power series

  /**
   * `Number(point.value)` and `new Date(point.date)` as integers: the
   * numeric conversions themselves are parameters of the model.
   */
  datatype Conversions = Conversions(number: Json -> int, date: Json -> int)

  /** A graph point: `{value, date}` with the date as a timestamp. */
  datatype Point = Point(value: int, date: int)

  /**
   * The power request: the MAC encoded, the range and bucket as they are.
   * Everything between `?mac=` and `&time_range=` is encoded text, so the
   * MAC cannot end the `mac` parameter early; an unreserved MAC is sent as
   * it is.
   */
  function PowerUrl(cfg: BuildConfig, mac: string, timeRange: string, bucket: string): (u: string)
    ensures DefaultApiUrl(cfg) + "/api/v1/power?mac=" <= u
    ensures var head := DefaultApiUrl(cfg) + "/api/v1/power?mac=";
      var tail := "&time_range=" + timeRange + "&bucket=" + bucket;
      |head| + |tail| <= |u| && u[|u| - |tail|..] == tail
      && forall k :: |head| <= k < |u| - |tail| ==> IsEncodedChar(u[k])
    ensures (forall k :: 0 <= k < |mac| ==> IsUnreserved(mac[k])) ==>
      u == DefaultApiUrl(cfg) + "/api/v1/power?mac=" + mac + ("&time_range=" + timeRange + "&bucket=" + bucket)
  {
    var head := DefaultApiUrl(cfg) + "/api/v1/power?mac=";
    var tail := "&time_range=" + timeRange + "&bucket=" + bucket;
    EncodedBetween(head, mac, tail);
    head + EncodeUriComponent(mac) + tail
  }

  /** `backendPoints.map(...)`; `None` when an element is `null` or `undefined`, whose fields cannot be read. */
  function MapPoints(raw: seq<Json>, conv: Conversions): (r: Option<seq<Point>>)
    ensures r.Some? <==> forall k :: 0 <= k < |raw| ==> !Nullish(raw[k])
    ensures r.Some? ==> |r.value| == |raw|
    ensures r.Some? ==> forall k :: 0 <= k < |raw| ==>
      r.value[k] == Point(conv.number(Get(raw[k], "value")), conv.date(Get(raw[k], "date")))
  {
    if raw == [] then Some([])
    else if Nullish(raw[0]) then None
    else
      match MapPoints(raw[1..], conv)
      case None => None
      case Some(rest) =>
        Some([Point(conv.number(Get(raw[0], "value")), conv.date(Get(raw[0], "date")))] + rest)
  }

  /** `(a, b) => a.date - b.date`. */
  function ByDate(): (cmp: (Point, Point) -> int)
    ensures forall a, b :: cmp(a, b) <= 0 <==> a.date <= b.date
  {
    (a: Point, b: Point) => a.date - b.date
  }

  lemma ByDateIsTotalPreorder()
    ensures TotalPreorder(ByDate())
  {
  }

  /** `mapped.sort(...)`: the same points, ascending by date. */
  function SortByDate(points: seq<Point>): (r: seq<Point>)
    ensures multiset(r) == multiset(points)
    ensures forall i, j :: 0 <= i < j < |r| ==> r[i].date <= r[j].date
  {
    ByDateIsTotalPreorder();
    SortSorted(points, ByDate());
    var r := Sort(points, ByDate());
    assert forall i, j :: 0 <= i < j < |r| ==> ByDate()(r[i], r[j]) <= 0;
    r
  }

  /** A series whose dates already ascend is left in its order. */
  lemma AscendingSeriesUnchanged(points: seq<Point>)
    requires forall i, j :: 0 <= i < j < |points| ==> points[i].date <= points[j].date
    ensures SortByDate(points) == points
  {
    assert Sorted(points, ByDate());
    SortOfSortedIsIdentity(points, ByDate());
  }

  /** What a successful power response sets: the sorted points and the three figures. */
  datatype PowerData = PowerData(points: seq<Point>, min: Json, max: Json, average: Json)

  /** `Array.isArray(data.points) ? data.points : []`; `None` when `data` itself is `null` or `undefined`. */
  function RawPoints(data: Json): (r: Option<seq<Json>>)
    ensures r.None? <==> Nullish(data)
    ensures r.Some? && Get(data, "points").Arr? ==> r.value == Get(data, "points").items
    ensures r.Some? && !Get(data, "points").Arr? ==> r.value == []
  {
    if Nullish(data) then None
    else if Get(data, "points").Arr? then Some(Get(data, "points").items)
    else Some([])
  }

  /**
   * The power response handler: `None` when the chain rejects (the request,
   * the parse, or a field read on `null`), else the new series and figures.
   */
  function PowerOutcome(resp: Response, conv: Conversions): (r: Option<PowerData>)
    ensures Fetched(resp).None? ==> r.None?
    ensures r.Some? ==>
      var data := Fetched(resp).value;
      && RawPoints(data).Some?
      && MapPoints(RawPoints(data).value, conv).Some?
      && multiset(r.value.points) == multiset(MapPoints(RawPoints(data).value, conv).value)
      && (forall i, j :: 0 <= i < j < |r.value.points| ==> r.value.points[i].date <= r.value.points[j].date)
      && r.value.min == Get(data, "min") && r.value.max == Get(data, "max") && r.value.average == Get(data, "average")
    ensures Fetched(resp).Some? && r.None? ==>
      Nullish(Fetched(resp).value) || MapPoints(RawPoints(Fetched(resp).value).value, conv).None?
  {
    match Fetched(resp)
    case None => None
    case Some(data) =>
      match RawPoints(data)
      case None => None
      case Some(raw) =>
        match MapPoints(raw, conv)
        case None => None
        case Some(mapped) =>
          Some(PowerData(SortByDate(mapped), Get(data, "min"), Get(data, "max"), Get(data, "average")))
  }

  /** A reply without a `points` array gives an empty series, but still sets the figures. */
  lemma MissingPointsGiveEmptySeries(ok: bool, status: int, members: seq<Member>, conv: Conversions)
    requires !Get(Obj(members), "points").Arr?
    ensures PowerOutcome(Reply(ok, status, Parsed(Obj(members))), conv)
      == Some(PowerData([], Get(Obj(members), "min"), Get(Obj(members), "max"), Get(Obj(members), "average")))
  {
    assert RawPoints(Obj(members)) == Some([]);
    assert MapPoints([], conv) == Some([]);
    assert SortByDate([]) == [];
  }

  /** A `null` body throws on `data.points`, so it counts as a failure. */
  lemma NullBodyIsAFailure(ok: bool, status: int, conv: Conversions)
    ensures PowerOutcome(Reply(ok, status, Parsed(Null)), conv).None?
  {
  }

  /**
   * A press on a fresh screen before the mount's `isMachineMuted` settles,
   * and that read then finds the device muted: the press saw `isMuted`
   * false, so the toggle still mutes.
   */
  method PressBeforeMutedReadMutes(mac: string, store: KeyValueStore, client: Client, lk: Lookups,
                                   reply: ListReply, io: CacheIo, o: MutationOracle) returns (s: Screen)
    requires mac != [] && StoreShape(store.items)
    requires mac in MutedList(store.items, client, lk, reply, io).muted
    modifies store
    ensures var out := MuteOutcome(MutedList(old(store.items), client, lk, reply, io).items, client, mac, o);
      && store.items == out.items
      && s.isMuted
      && s.alerts == [if out.success then Alert("Success", "Notifications muted for this device")
                      else Alert("Error", "Failed to mute device")]
  {
    ghost var read := MutedList(store.items, client, lk, reply, io);
    s := new Screen(mac, store, client);
    var started := s.BeginToggle();
    assert started && !s.unmuting;
    s.LoadMuted(lk, reply, io);
    assert s.isMuted && !s.unmuting && s.muteBusy && s.alerts == [];
    assert store.items == read.items;
    s.FinishToggle(o);
  }

  class Screen {
    const mac: string
    const store: KeyValueStore
    const client: Client
    var timeRange: string
    var bucket: string
    var points: seq<Point>
    var min: Json
    var max: Json
    var average: Json
    var isMuted: bool
    var muteBusy: bool
    /** The pending toggle's choice: `isMuted` as the press read it, `true` for an unmute. */
    var unmuting: bool
    /** Every alert shown so far, oldest first. */
    var alerts: seq<Alert>
    /** Every power request issued so far, oldest first. */
    var requests: seq<Request>

    /** The initial state: range "3h", bucket "1m", no points, figures "-", not muted. */
    constructor (mac: string, store: KeyValueStore, client: Client)
      ensures this.mac == mac && this.store == store && this.client == client
      ensures timeRange == DefaultRange && bucket == DefaultBucket && points == []
      ensures min == Str("-") && max == Str("-") && average == Str("-")
      ensures !isMuted && !muteBusy && alerts == [] && requests == []
    {
      this.mac := mac;
      this.store := store;
      this.client := client;
      timeRange := DefaultRange;
      bucket := DefaultBucket;
      points := [];
      min := Str("-");
      max := Str("-");
      average := Str("-");
      isMuted := false;
      muteBusy := false;
      unmuting := false;
      alerts := [];
      requests := [];
    }

    /** The mount effect reading `graph_time_range`; a rejected read is unhandled and changes nothing. */
    method RestoreRange(readFails: bool)
      modifies this`timeRange, this`bucket
      ensures (timeRange, bucket) == Restored(ReadOf(store.items, GraphRangeKey, readFails), old(timeRange), old(bucket))
    {
      var saved := store.GetItem(GraphRangeKey, readFails);
      if saved.Present? && saved.value.Str? && saved.value.s != [] {
        timeRange := saved.value.s;
        var opt := FindOption(TimeOptions, saved.value.s);
        if opt.Some? {
          bucket := opt.value.bucket;
        }
      }
    }

    /** The dropdown's `onChange(opt)`: the range and bucket follow the option, and its value is saved. */
    method SelectRange(opt: TimeOption, writeFails: bool)
      modifies this`timeRange, this`bucket, store
      ensures timeRange == opt.value && bucket == opt.bucket
      ensures store.items == if writeFails then old(store.items) else old(store.items)[GraphRangeKey := Str(opt.value)]
    {
      timeRange := opt.value;
      bucket := opt.bucket;
      var _ := store.SetItem(GraphRangeKey, Str(opt.value), writeFails);
    }

    /** The mute effect: `isMachineMuted(mac)` when there is a MAC. */
    method LoadMuted(lk: Lookups, reply: ListReply, io: CacheIo)
      requires StoreShape(store.items)
      modifies this`isMuted, store
      ensures mac == [] ==> isMuted == old(isMuted) && store.items == old(store.items)
      ensures mac != [] ==>
        && (isMuted <==> mac in MutedList(old(store.items), client, lk, reply, io).muted)
        && store.items == MutedList(old(store.items), client, lk, reply, io).items
      ensures StoreShape(store.items)
    {
      if mac != [] {
        isMuted := IsMachineMuted(store, client, mac, lk, reply, io);
      }
    }

    /**
     * A press of the mute button: ignored while a toggle is pending or
     * without a MAC. A press that starts reads `isMuted` there and then, so
     * the choice between unmuting and muting is fixed before any await.
     */
    method BeginToggle() returns (started: bool)
      modifies this`muteBusy, this`unmuting
      ensures started <==> !old(muteBusy) && mac != []
      ensures muteBusy == (old(muteBusy) || started)
      ensures unmuting == if started then old(isMuted) else old(unmuting)
    {
      if muteBusy || mac == [] {
        return false;
      }
      muteBusy := true;
      unmuting := isMuted;
      started := true;
    }

    /**
     * The pending toggle completes: `unmuteMachine` when the press saw the
     * device muted, else `muteMachine`, whatever `isMuted` became in the
     * meantime; `isMuted` is set only on success, an alert reports the
     * result, and `muteBusy` is cleared either way.
     */
    method FinishToggle(o: MutationOracle)
      requires muteBusy && StoreShape(store.items)
      modifies this`isMuted, this`muteBusy, this`alerts, store
      ensures old(unmuting) ==>
        var out := UnmuteOutcome(old(store.items), client, mac, o);
        && store.items == out.items
        && isMuted == (if out.success then false else old(isMuted))
        && alerts == old(alerts) + [if out.success then Alert("Success", "Notifications unmuted for this device")
                                    else Alert("Error", "Failed to unmute device")]
      ensures !old(unmuting) ==>
        var out := MuteOutcome(old(store.items), client, mac, o);
        && store.items == out.items
        && isMuted == (if out.success then true else old(isMuted))
        && alerts == old(alerts) + [if out.success then Alert("Success", "Notifications muted for this device")
                                    else Alert("Error", "Failed to mute device")]
      ensures !muteBusy && StoreShape(store.items)
    {
      if unmuting {
        var success, _ := UnmuteMachine(store, client, mac, o);
        if success {
          isMuted := false;
          alerts := alerts + [Alert("Success", "Notifications unmuted for this device")];
        } else {
          alerts := alerts + [Alert("Error", "Failed to unmute device")];
        }
      } else {
        var success, _ := MuteMachine(store, client, mac, o);
        if success {
          isMuted := true;
          alerts := alerts + [Alert("Success", "Notifications muted for this device")];
        } else {
          alerts := alerts + [Alert("Error", "Failed to mute device")];
        }
      }
      muteBusy := false;
    }

    /** The power effect, run for each MAC, range and bucket: one request when the MAC is non-empty. */
    method FetchPower()
      modifies this`requests
      ensures requests == old(requests) +
        (if mac != [] then [Request(GET, PowerUrl(client.cfg, mac, timeRange, bucket), None)] else [])
    {
      if mac != [] {
        requests := requests + [Request(GET, PowerUrl(client.cfg, mac, timeRange, bucket), None)];
      }
    }

    /** A power request settles: the new series and figures, or on failure an empty series and the old figures. */
    method RespondPower(resp: Response, conv: Conversions)
      modifies this`points, this`min, this`max, this`average
      ensures PowerOutcome(resp, conv).Some? ==>
        && points == PowerOutcome(resp, conv).value.points
        && min == PowerOutcome(resp, conv).value.min
        && max == PowerOutcome(resp, conv).value.max
        && average == PowerOutcome(resp, conv).value.average
      ensures PowerOutcome(resp, conv).None? ==>
        points == [] && min == old(min) && max == old(max) && average == old(average)
    {
      var outcome := PowerOutcome(resp, conv);
      if outcome.Some? {
        points := outcome.value.points;
        min := outcome.value.min;
        max := outcome.value.max;
        average := outcome.value.average;
      } else {
        points := [];
      }
    }
  }
}
