/**
 * The monitor editor: it finds the route's monitor in `/api/v1/monitors` by
 * string-equal id, preselects its machine, loads the machines sorted by
 * name, and saves by reassigning the monitor to the selected machine.
 */
module EditMonitor {
  import opened Common
  import opened Text
  import opened Js
  import opened Http
  import opened ApiConfig
  import opened ListShape
  import opened Ui
  import opened Submission

  const LoadFailedMessage := "Failed to load monitor details"
  const NoMachineMessage := "Please select a machine"

  /** `found.name || found.machine_name || ""`: the machine preselected for a found monitor. */
  function InitialSelection(found: Json): (s: string)
    ensures Get(found, "name").Str? && Get(found, "name").s != [] ==> s == Get(found, "name").s
    ensures !Truthy(Get(found, "name")) && Get(found, "machine_name").Str? ==> s == Get(found, "machine_name").s
    ensures !Truthy(Get(found, "name")) && !Truthy(Get(found, "machine_name")) ==> s == ""
  {
    FieldText(Or(Get(found, "name"), Get(found, "machine_name")))
  }

  /** The alert after a save settles: success text on an ok reply, else the caught error's message. */
  function SaveAlert(monitorId: Json, machine: string, resp: Response): (a: Alert)
    ensures a.title == "Success" <==> resp.Reply? && resp.ok
    ensures a.title == "Success" ==> a.message == "Monitor " + ToText(monitorId) + " reassigned to " + machine
    ensures CaughtFailure(resp).Some? ==> a == Alert("Error", "Failed to reassign monitor: " + CaughtFailure(resp).value.message)
  {
    match CaughtFailure(resp)
    case None => Alert("Success", "Monitor " + ToText(monitorId) + " reassigned to " + machine)
    case Some(f) => Alert("Error", "Failed to reassign monitor: " + f.message)
  }

  class Screen {
    const cfg: BuildConfig
    /** The route parameter `monitorId`. */
    const monitorId: Json
    var monitor: Json
    var selectedMachine: string
    var machines: seq<Json>
    var busy: bool
    /** The machine a pending save names (the handler's own copy of the selection). */
    var target: string
    var lookupPending: bool
    var machinesPending: bool
    /** Every request issued so far, oldest first. */
    var requests: seq<Request>
    var alerts: seq<Alert>
    var navigation: seq<Navigation>

    /** Mounting runs both effects: the lookup (only for a truthy `monitorId`) and the machines fetch. */
    constructor (cfg: BuildConfig, monitorId: Json)
      ensures this.cfg == cfg && this.monitorId == monitorId
      ensures monitor == Null && selectedMachine == "" && machines == [] && !busy
      ensures lookupPending == Truthy(monitorId) && machinesPending
      ensures requests == (if Truthy(monitorId) then [Request(GET, ApiBase(cfg) + "/monitors", None)] else [])
                          + [Request(GET, ApiBase(cfg) + "/machines", None)]
      ensures alerts == [] && navigation == []
    {
      this.cfg := cfg;
      this.monitorId := monitorId;
      monitor := Null;
      selectedMachine := "";
      machines := [];
      busy := false;
      target := "";
      lookupPending := Truthy(monitorId);
      machinesPending := true;
      requests := (if Truthy(monitorId) then [Request(GET, ApiBase(cfg) + "/monitors", None)] else [])
                  + [Request(GET, ApiBase(cfg) + "/machines", None)];
      alerts := [];
      navigation := [];
    }

    /**
     * The lookup settles: a truthy match becomes the monitor and preselects
     * its machine; any throw on the way raises the load alert; no match
     * changes nothing.
     */
    method RespondLookup(resp: Response)
      requires lookupPending
      modifies this`monitor, this`selectedMachine, this`lookupPending, this`alerts
      ensures !lookupPending
      ensures var s := SearchReply(resp, ToText(monitorId));
        && (s.Found? && Truthy(s.item) ==> monitor == s.item && selectedMachine == InitialSelection(s.item))
        && (!(s.Found? && Truthy(s.item)) ==> monitor == old(monitor) && selectedMachine == old(selectedMachine))
        && alerts == old(alerts) + (if s.Threw? then [Alert("Error", LoadFailedMessage)] else [])
    {
      lookupPending := false;
      var s := SearchReply(resp, ToText(monitorId));
      if s.Threw? {
        alerts := alerts + [Alert("Error", LoadFailedMessage)];
      } else if s.Found? && Truthy(s.item) {
        monitor := s.item;
        selectedMachine := InitialSelection(s.item);
      }
    }

    /** The machines fetch settles: the list sorted by name, or `[]` on any failure. */
    method RespondMachines(resp: Response)
      requires machinesPending
      modifies this`machines, this`machinesPending
      ensures !machinesPending && machines == SortedMachines(resp)
    {
      machinesPending := false;
      machines := SortedMachines(resp);
    }

    /** The picker's `onValueChange`. */
    method Select(machine: string)
      modifies this`selectedMachine
      ensures selectedMachine == machine
    {
      selectedMachine := machine;
    }

    /**
     * `handleSave()` up to its request: nothing while busy; an empty
     * selection alerts and leaves `busy` false; otherwise `busy` is set and
     * the reassign is issued.
     */
    method Save() returns (started: bool)
      modifies this`busy, this`target, this`requests, this`alerts
      ensures started <==> !old(busy) && old(selectedMachine) != ""
      ensures busy == (old(busy) || started)
      ensures started ==> (target == old(selectedMachine)
        && requests == old(requests) + [ReassignRequest(ApiBase(cfg), ToText(monitorId), old(selectedMachine))])
      ensures !started ==> target == old(target) && requests == old(requests)
      ensures alerts == old(alerts) + (if !old(busy) && old(selectedMachine) == "" then [Alert("Error", NoMachineMessage)] else [])
    {
      started := false;
      if busy {
        return;
      }
      if selectedMachine == "" {
        alerts := alerts + [Alert("Error", NoMachineMessage)];
        return;
      }
      busy := true;
      target := selectedMachine;
      requests := requests + [ReassignRequest(ApiBase(cfg), ToText(monitorId), selectedMachine)];
      started := true;
    }

    /** The reassign settles: its alert, `router.back()` after an ok reply, and `busy` cleared. */
    method FinishSave(resp: Response)
      requires busy
      modifies this`busy, this`alerts, this`navigation
      ensures alerts == old(alerts) + [SaveAlert(monitorId, target, resp)]
      ensures navigation == old(navigation) + (if resp.Reply? && resp.ok then [Back] else [])
      ensures !busy
    {
      alerts := alerts + [SaveAlert(monitorId, target, resp)];
      if CaughtFailure(resp).None? {
        navigation := navigation + [Back];
      }
      busy := false;
    }

    /** `handleCancel()`: the Cancel button is disabled while busy. */
    method Cancel()
      modifies this`navigation
      ensures navigation == old(navigation) + (if old(busy) then [] else [Back])
    {
      if !busy {
        navigation := navigation + [Back];
      }
    }
  }

  /** A monitor whose id is the number the route names is found by it, and its machine preselected. */
  lemma RouteIdFindsNumericId(members: seq<Member>, n: int, name: string)
    requires Lookup(members, "id") == Num(n)
    requires Lookup(members, "name") == Str(name) && name != []
    ensures var s := SearchReply(Reply(true, 200, Parsed(Arr([Obj(members)]))), ToText(Str(IntToString(n))));
      s == Found(Obj(members)) && InitialSelection(s.item) == name
  {
  }
}
