/**
 * The muted devices screen: the list `getMutedMachines()` returns, with one
 * item per MAC whose Unmute button calls `unmuteMachine` and, on success,
 * tells the screen to drop that MAC.
 */
module MutedDevices {
  import opened Common
  import opened Http
  import opened Storage
  import opened MuteService
  import opened Ui

  const UnmuteFailedMessage := "Failed to unmute device"

  /** `prev.filter(m => m !== mac)`. */
  function WithoutMac(macs: seq<string>, mac: string): (r: seq<string>)
    ensures mac !in r
    ensures forall m :: m != mac ==> multiset(r)[m] == multiset(macs)[m]
  {
    FilterCounts(macs, (m: string) => m != mac);
    Filter(macs, (m: string) => m != mac)
  }

  /** The other MACs keep their relative order: removal commutes with splitting the list. */
  lemma WithoutMacKeepsOrder(a: seq<string>, b: seq<string>, mac: string)
    ensures WithoutMac(a + b, mac) == WithoutMac(a, mac) + WithoutMac(b, mac)
  {
    FilterConcat(a, b, (m: string) => m != mac);
  }

  /** Removing a MAC that is not listed changes nothing. */
  lemma WithoutAbsentMacIsIdentity(macs: seq<string>, mac: string)
    requires mac !in macs
    ensures WithoutMac(macs, mac) == macs
  {
    assert forall k :: 0 <= k < |macs| ==> macs[k] != mac;
  }

  /** One `MutedDeviceItem`. */
  class Item {
    const mac: string
    var busy: bool
    var alerts: seq<Alert>

    constructor (mac: string)
      ensures this.mac == mac && !busy && alerts == []
    {
      this.mac := mac;
      busy := false;
      alerts := [];
    }

    /** A press of Unmute: the button is disabled while busy, so a press then does nothing. */
    method Press() returns (started: bool)
      modifies this`busy
      ensures started == !old(busy)
      ensures busy
    {
      started := !busy;
      busy := true;
    }

    /**
     * The pending `unmuteMachine(mac)` completes: success asks the screen to
     * drop the MAC (`onUnmute`), failure raises an alert; `busy` is cleared.
     */
    method Finish(store: KeyValueStore, client: Client, o: MutationOracle) returns (notify: bool)
      requires busy && StoreShape(store.items)
      modifies this`busy, this`alerts, store
      ensures notify == UnmuteOutcome(old(store.items), client, mac, o).success
      ensures store.items == UnmuteOutcome(old(store.items), client, mac, o).items
      ensures alerts == old(alerts) + (if notify then [] else [Alert("Error", UnmuteFailedMessage)])
      ensures !busy && StoreShape(store.items)
    {
      var success, _ := UnmuteMachine(store, client, mac, o);
      if !success {
        alerts := alerts + [Alert("Error", UnmuteFailedMessage)];
      }
      notify := success;
      busy := false;
    }
  }

  /** The `MutedDevices` screen. */
  class Screen {
    var mutedMacs: seq<string>
    var loading: bool

    constructor ()
      ensures mutedMacs == [] && loading
    {
      mutedMacs := [];
      loading := true;
    }

    /** `loadMutedDevices()`: the list is whatever `getMutedMachines()` returns, and loading ends. */
    method Load(store: KeyValueStore, client: Client, lk: Lookups, reply: ListReply, io: CacheIo)
        returns (request: Request)
      requires StoreShape(store.items)
      modifies this`mutedMacs, this`loading, store
      ensures mutedMacs == MutedList(old(store.items), client, lk, reply, io).muted
      ensures store.items == MutedList(old(store.items), client, lk, reply, io).items
      ensures request == Request(GET, ListEndpoint(old(store.items), client, lk).url, None)
      ensures !loading && StoreShape(store.items)
    {
      loading := true;
      var muted;
      muted, request := GetMutedMachines(store, client, lk, reply, io);
      mutedMacs := muted;
      loading := false;
    }

    /** `handleUnmute(mac)`: exactly that MAC leaves the list. */
    method HandleUnmute(mac: string)
      modifies this`mutedMacs
      ensures mutedMacs == WithoutMac(old(mutedMacs), mac)
    {
      mutedMacs := WithoutMac(mutedMacs, mac);
    }
  }
}
