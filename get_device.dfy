/**
 * `useGetDevice(mac)`: a hook holding one device record. Each time the
 * effect runs for a MAC it fetches `${base}/api/v1/devices/${mac}` and keeps
 * the first element of an array reply, or the reply itself; a falsy MAC or a
 * failed request leaves `null`.
 */
module GetDevice {
  import opened Common
  import opened Js
  import opened Http
  import opened ApiConfig
  import opened ListShape

  /** The request the effect issues for a MAC: the env/extra base, slash stripped. */
  function DeviceUrl(cfg: BuildConfig, mac: Json): (url: string)
    ensures DefaultApiUrl(cfg) <= url
    ensures url[|DefaultApiUrl(cfg)|..] == "/api/v1/devices/" + ToText(mac)
  {
    var r := DefaultApiUrl(cfg) + "/api/v1" + "/devices/" + ToText(mac);
    assert r == DefaultApiUrl(cfg) + ("/api/v1/devices/" + ToText(mac));
    r
  }

  /**
   * The device a settled request yields: `Array.isArray(data) ? data[0] :
   * data`, then `|| null`. Rejections give `null`.
   */
  function DeviceFrom(resp: Response): (d: Json)
    ensures d == Null || Truthy(d)
    ensures Fetched(resp).None? ==> d == Null
    ensures Fetched(resp).Some? && Fetched(resp).value.Arr? ==>
      d == (if Fetched(resp).value.items != [] && Truthy(Fetched(resp).value.items[0])
            then Fetched(resp).value.items[0] else Null)
    ensures Fetched(resp).Some? && !Fetched(resp).value.Arr? ==>
      d == (if Truthy(Fetched(resp).value) then Fetched(resp).value else Null)
  {
    match Fetched(resp)
    case None => Null
    case Some(data) =>
      var first := if data.Arr? then (if data.items != [] then data.items[0] else Undefined) else data;
      Or(first, Null)
  }

  /** An object reply, whatever its status, is the device itself. */
  lemma ObjectReplyIsTheDevice(ok: bool, status: int, members: seq<Member>)
    ensures DeviceFrom(Reply(ok, status, Parsed(Obj(members)))) == Obj(members)
  {
  }

  /** An empty array, a falsy first element and an unparsable body all give `null`. */
  lemma NoRecordGivesNull(ok: bool, status: int, items: seq<Json>)
    requires items == [] || !Truthy(items[0])
    ensures DeviceFrom(Reply(ok, status, Parsed(Arr(items)))) == Null
    ensures DeviceFrom(Reply(ok, status, Unparsable)) == Null
  {
  }

  class DeviceHook {
    /** The `device` state. */
    var device: Json
    /** Requests issued and not yet settled. */
    var inFlight: nat
    /** Every request issued so far, oldest first. */
    var requests: seq<Request>
    const cfg: BuildConfig

    /** `useState(null)`: before the first effect runs. */
    constructor (cfg: BuildConfig)
      ensures this.cfg == cfg
      ensures device == Null && inFlight == 0 && requests == []
    {
      this.cfg := cfg;
      device := Null;
      inFlight := 0;
      requests := [];
    }

    /**
     * The effect, run at mount and whenever `mac` changes: a falsy MAC
     * resets the device to `null` and fetches nothing; otherwise one GET.
     */
    method Effect(mac: Json)
      modifies this`device, this`inFlight, this`requests
      ensures !Truthy(mac) ==> device == Null && requests == old(requests) && inFlight == old(inFlight)
      ensures Truthy(mac) ==>
        && device == old(device)
        && requests == old(requests) + [Request(GET, DeviceUrl(cfg, mac), None)]
        && inFlight == old(inFlight) + 1
    {
      if !Truthy(mac) {
        device := Null;
        return;
      }
      requests := requests + [Request(GET, DeviceUrl(cfg, mac), None)];
      inFlight := inFlight + 1;
    }

    /**
     * A request settles and its device replaces the state. There is no
     * guard: a late reply for an earlier MAC still overwrites the device.
     */
    method Respond(resp: Response)
      requires inFlight > 0
      modifies this`device, this`inFlight, this`requests
      ensures device == DeviceFrom(resp)
      ensures inFlight == old(inFlight) - 1 && requests == old(requests)
    {
      device := DeviceFrom(resp);
      inFlight := inFlight - 1;
    }
  }
}
