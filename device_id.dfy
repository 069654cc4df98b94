/**
 * The installation identity the server keys mute lists by: read from
 * `@device_id`, or generated from the platform's device information and
 * the clock, stored once and reused. A storage failure yields a temporary
 * id that is not stored.
 */
module Identity {
  import opened Common
  import opened Text
  import opened Js
  import opened Storage

  const DeviceIdKey := "@device_id"

  /** `Device.osName`, `Device.modelId` and `Device.deviceName`; `None` is `null`. */
  datatype DeviceInfo = DeviceInfo(osName: Option<string>, modelId: Option<string>, deviceName: Option<string>)

  /** `Device.modelId || Device.deviceName || 'unknown'`. */
  function UniqueId(info: DeviceInfo): (r: string)
    ensures info.modelId.Some? && info.modelId.value != [] ==> r == info.modelId.value
    ensures (info.modelId.None? || info.modelId.value == []) && info.deviceName.Some? && info.deviceName.value != []
      ==> r == info.deviceName.value
    ensures (info.modelId.None? || info.modelId.value == []) && (info.deviceName.None? || info.deviceName.value == [])
      ==> r == "unknown"
  {
    if info.modelId.Some? && info.modelId.value != [] then info.modelId.value
    else if info.deviceName.Some? && info.deviceName.value != [] then info.deviceName.value
    else "unknown"
  }

  /** `` `${Device.osName}-${uniqueId}-${Date.now()}` ``; a `null` OS name prints as "null". */
  function GeneratedId(info: DeviceInfo, now: nat): (id: string)
    ensures info.osName.GetOr("null") + "-" <= id
    ensures var t := NatToString(now); |t| < |id| && id[|id| - |t|..] == t && id[|id| - |t| - 1] == '-'
  {
    var head := info.osName.GetOr("null") + "-" + UniqueId(info) + "-";
    assert (head + NatToString(now))[|head|..] == NatToString(now);
    head + NatToString(now)
  }

  /** `` `temp-${Date.now()}` ``: the fixed prefix and then only the timestamp's digits. */
  function TempId(now: nat): (id: string)
    ensures |id| > 5 && id[..5] == "temp-" && id[5..] == NatToString(now)
    ensures forall k :: 5 <= k < |id| ==> IsDigit(id[k])
  {
    "temp-" + NatToString(now)
  }

  /** The stored id `getDeviceId` reuses: a non-empty string under `@device_id`. */
  function StoredId(items: map<string, Json>): Option<string> {
    if DeviceIdKey in items && items[DeviceIdKey].Str? && items[DeviceIdKey].s != [] then Some(items[DeviceIdKey].s)
    else None
  }

  /** AsyncStorage holds strings only, so whatever is under `@device_id` is a string. */
  predicate IdItemIsText(items: map<string, Json>) {
    DeviceIdKey in items ==> items[DeviceIdKey].Str?
  }

  /** The result of `getDeviceId()` and the store afterwards. */
  datatype IdOutcome = IdOutcome(id: string, items: map<string, Json>)

  /**
   * `getDeviceId()`: a read error gives the temporary id; a stored id is
   * reused; otherwise a fresh id is generated and stored, and a write error
   * gives the temporary id instead.
   */
  function IdFor(items: map<string, Json>, info: DeviceInfo, now: nat, readFails: bool, writeFails: bool): (r: IdOutcome)
    ensures readFails ==> r == IdOutcome(TempId(now), items)
    ensures !readFails && StoredId(items).Some? ==> r == IdOutcome(StoredId(items).value, items)
    ensures !readFails && StoredId(items).None? && !writeFails ==>
      r == IdOutcome(GeneratedId(info, now), items[DeviceIdKey := Str(GeneratedId(info, now))])
    ensures !readFails && StoredId(items).None? && writeFails ==> r == IdOutcome(TempId(now), items)
    ensures r.id != []
  {
    if readFails then IdOutcome(TempId(now), items)
    else if StoredId(items).Some? then IdOutcome(StoredId(items).value, items)
    else if writeFails then IdOutcome(TempId(now), items)
    else IdOutcome(GeneratedId(info, now), items[DeviceIdKey := Str(GeneratedId(info, now))])
  }

  method GetDeviceId(store: KeyValueStore, info: DeviceInfo, now: nat, readFails: bool, writeFails: bool)
      returns (id: string)
    requires IdItemIsText(store.items)
    modifies store
    ensures IdOutcome(id, store.items) == IdFor(old(store.items), info, now, readFails, writeFails)
    ensures IdItemIsText(store.items)
  {
    var stored := store.GetItem(DeviceIdKey, readFails);
    if stored.ReadFailed? {
      return TempId(now);
    }
    if stored.Present? && stored.value.s != [] {
      return stored.value.s;
    }
    id := GeneratedId(info, now);
    var ok := store.SetItem(DeviceIdKey, Str(id), writeFails);
    if !ok {
      id := TempId(now);
    }
  }

  /** Once an id has been stored, every later call returns it and writes nothing. */
  lemma IdIsMemoised(items: map<string, Json>, info: DeviceInfo, now: nat, writeFails: bool,
                     info2: DeviceInfo, now2: nat, writeFails2: bool)
    requires StoredId(items).None?
    ensures var first := IdFor(items, info, now, false, writeFails);
      !writeFails ==> IdFor(first.items, info2, now2, false, writeFails2) == IdOutcome(first.id, first.items)
  {
    var g := GeneratedId(info, now);
    assert g != [] by {
      assert |g| >= 2;
    }
  }

  /** An id already stored is returned unchanged, and storage is not written. */
  lemma StoredIdReused(items: map<string, Json>, info: DeviceInfo, now: nat, writeFails: bool)
    requires StoredId(items).Some?
    ensures IdFor(items, info, now, false, writeFails) == IdOutcome(items[DeviceIdKey].s, items)
  {
  }

  function Dashes(s: string): nat {
    if s == [] then 0 else (if s[0] == '-' then 1 else 0) + Dashes(s[1..])
  }

  lemma {:induction false} DashesConcat(a: string, b: string)
    ensures Dashes(a + b) == Dashes(a) + Dashes(b)
  {
    if a == [] {
      assert a + b == b;
    } else {
      assert (a + b)[1..] == a[1..] + b;
      DashesConcat(a[1..], b);
    }
  }

  lemma {:induction false} DigitsHaveNoDashes(s: string)
    requires forall k :: 0 <= k < |s| ==> IsDigit(s[k])
    ensures Dashes(s) == 0
  {
    if s != [] {
      DigitsHaveNoDashes(s[1..]);
    }
  }

  /**
   * A temporary id can never be mistaken for a generated one: it has a single
   * '-', a generated id at least two.
   */
  lemma TempIdIsNeverGenerated(info: DeviceInfo, now: nat, now2: nat)
    ensures TempId(now) != GeneratedId(info, now2)
  {
    var d := NatToString(now);
    DashesConcat("temp-", d);
    DigitsHaveNoDashes(d);
    assert Dashes("temp-") == 1;
    var os := info.osName.GetOr("null");
    var u := UniqueId(info);
    var d2 := NatToString(now2);
    DashesConcat(os + "-" + u + "-", d2);
    DashesConcat(os + "-" + u, "-");
    DashesConcat(os + "-", u);
    DashesConcat(os, "-");
    assert Dashes("-") == 1;
  }
}
