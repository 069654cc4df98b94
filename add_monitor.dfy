/**
 * The add/edit monitor form. With a non-empty `id` route parameter it edits:
 * the monitor is looked up by string-equal id and the form prefilled, and a
 * submit only reassigns the monitor to the selected machine. Without one it
 * adds: a submit posts the new monitor, and the form is cleared after a
 * successful add only.
 */
module AddMonitor {
  import opened Common
  import opened Text
  import opened Js
  import opened Http
  import opened ApiConfig
  import opened ListShape
  import opened Ui
  import opened Submission

  const InfoMessage := "Please select a machine to assign the monitor to"
  const MissingFieldsMessage := "Please fill in Monitor ID and MAC Address"
  const AddedMessage := "Monitor added successfully"

  /**
   * The `TypeError` of reading `monitor.id` while `monitor` is still `null`
   * (an edit submitted before the lookup found the monitor). The message
   * text is the engine's; this is one engine's wording.
   */
  const NullMonitorFailure := Failure("TypeError", "Cannot read property 'id' of null")

  /** `typeof idParam === "string" && idParam.length`: the parameter is a truthy string. */
  predicate EditsFor(idParam: Json): (e: bool)
    ensures e <==> idParam.Str? && Truthy(idParam)
  {
    idParam.Str? && idParam.s != []
  }

  /**
   * `fetchMonitor(id)`'s result: the first monitor whose id reads as `wanted`,
   * when it is truthy; `null` for a non-ok reply, a parse failure, a
   * non-array, a throw during the search, no match or a falsy match.
   */
  function MonitorFound(resp: Response, wanted: string): (m: Json)
    ensures m == Null || Truthy(m)
    ensures !(resp.Reply? && resp.ok) ==> m == Null
    ensures Truthy(m) ==> SearchReply(resp, wanted) == Found(m)
    ensures resp.Reply? && resp.ok && SearchReply(resp, wanted).Found? && Truthy(SearchReply(resp, wanted).item)
      ==> m == SearchReply(resp, wanted).item
  {
    if resp.Reply? && resp.ok then
      match SearchReply(resp, wanted)
      case Found(item) => if Truthy(item) then item else Null
      case _ => Null
    else Null
  }

  /** A found monitor's id reads as the wanted id. */
  lemma FoundMonitorHasWantedId(resp: Response, wanted: string)
    requires Truthy(MonitorFound(resp, wanted))
    ensures IdText(MonitorFound(resp, wanted)) == wanted
  {
    var items := Fetched(resp).value.items;
    var k :| 0 <= k < |items| && items[k] == MonitorFound(resp, wanted) && !Nullish(items[k]) && IdText(items[k]) == wanted;
  }

  /** `parseInt(monitorId, 10)` as sent: `NaN` goes out as `null` under `JSON.stringify`. */
  function IdValue(monitorId: string): (v: Json)
    ensures ParseInt(monitorId).Some? ==> v == Num(ParseInt(monitorId).value)
    ensures ParseInt(monitorId).None? ==> v == Null
  {
    match ParseInt(monitorId)
    case Some(n) => Num(n)
    case None => Null
  }

  /**
   * `{id: parseInt(monitorId, 10), mac, machine_name: selectedMachine || null}`,
   * read back as the backend reads it: the parsed id, the MAC, and the
   * machine or `null`.
   */
  function AddPayload(monitorId: string, mac: string, machine: string): (p: Json)
    ensures p.Obj?
    ensures Get(p, "id") == IdValue(monitorId)
    ensures Get(p, "mac") == Str(mac)
    ensures Get(p, "machine_name") == if machine != "" then Str(machine) else Null
  {
    var members := [Member("id", IdValue(monitorId)), Member("mac", Str(mac)),
                    Member("machine_name", if machine != "" then Str(machine) else Null)];
    LookupOfThree(members[0], members[1], members[2], "id");
    LookupOfThree(members[0], members[1], members[2], "mac");
    LookupOfThree(members[0], members[1], members[2], "machine_name");
    Obj(members)
  }

  /** A submitted monitor id written in decimal arrives as that number. */
  lemma DecimalIdArrives(n: int, mac: string, machine: string)
    ensures Get(AddPayload(IntToString(n), mac, machine), "id") == Num(n)
  {
    ParseIntOfIntToString(n);
  }

  /** What a submit does before awaiting: refuse with an alert, throw, or issue its request. */
  datatype Plan = Refused(alert: Alert) | Crashed(failure: Failure) | Issued(request: Request)

  function PlanSubmit(cfg: BuildConfig, isEdit: bool, monitor: Json, monitorId: string, mac: string, machine: string): (p: Plan)
    ensures p.Issued? <==> (isEdit && machine != "" && !Nullish(monitor)) || (!isEdit && monitorId != "" && mac != "")
    ensures isEdit && machine == "" ==> p == Refused(Alert("Info", InfoMessage))
    ensures isEdit && machine != "" && Nullish(monitor) ==> p == Crashed(NullMonitorFailure)
    ensures !isEdit && (monitorId == "" || mac == "") ==> p == Refused(Alert("Error", MissingFieldsMessage))
    ensures isEdit && p.Issued? ==> p.request == ReassignRequest(ApiBase(cfg), IdText(monitor), machine)
    ensures !isEdit && p.Issued? ==>
      p.request == Request(POST, ApiBase(cfg) + "/monitors", Some(AddPayload(monitorId, mac, machine)))
  {
    if isEdit then
      if machine == "" then Refused(Alert("Info", InfoMessage))
      else if Nullish(monitor) then Crashed(NullMonitorFailure)
      else Issued(ReassignRequest(ApiBase(cfg), IdText(monitor), machine))
    else if monitorId == "" || mac == "" then Refused(Alert("Error", MissingFieldsMessage))
    else Issued(Request(POST, ApiBase(cfg) + "/monitors", Some(AddPayload(monitorId, mac, machine))))
  }

  /** The effects of a settled submit on the form. */
  datatype Settled = Settled(alerts: seq<Alert>, error: Option<string>, back: bool, cleared: bool)

  function SettleSubmit(editing: bool, idText: string, machine: string, resp: Response): (r: Settled)
    ensures r.error.None? <==> resp.Reply? && resp.ok
    ensures r.back <==> editing && resp.Reply? && resp.ok
    ensures r.cleared <==> !editing && resp.Reply? && resp.ok
    ensures r.error.Some? ==> |r.error.value| <= 300
    ensures editing && resp.Reply? && resp.ok ==>
      r.alerts == [Alert("Success", "Monitor " + idText + " assigned to " + machine)]
    ensures !editing && resp.Reply? && resp.ok ==> r.alerts == [Alert("Success", AddedMessage)]
    ensures !(resp.Reply? && resp.ok) ==>
      var s := if editing then CheckedReply(resp, "Error", Some("Reassignment failed: "), "Reassignment failed")
               else CheckedReply(resp, "Error", None, "Request failed");
      && r.error == Some(ErrorState(s.failure))
      && r.alerts == (if s.alert.Some? then [s.alert.value] else [])
  {
    var s := if editing then CheckedReply(resp, "Error", Some("Reassignment failed: "), "Reassignment failed")
             else CheckedReply(resp, "Error", None, "Request failed");
    match s
    case Passed =>
      if editing then Settled([Alert("Success", "Monitor " + idText + " assigned to " + machine)], None, true, false)
      else Settled([Alert("Success", AddedMessage)], None, false, true)
    case Stopped(a, f) =>
      Settled(if a.Some? then [a.value] else [], Some(ErrorState(f)), false, false)
  }

  /** A rejected add reports the backend's reason both as an alert and in the error line. */
  lemma RejectedAddReportsReason(status: int, reason: string, idText: string, machine: string)
    requires reason != [] && |"Error: " + reason| <= 300
    ensures var r := SettleSubmit(false, idText, machine, Reply(false, status, Parsed(Obj([Member("detail", Str(reason))]))));
      r.alerts == [Alert("Error", reason)] && r.error == Some("Error: " + reason)
  {
    DetailTextReported(reason);
    assert ErrorText(Failure("Error", reason)) == "Error: " + reason;
  }

  class Screen {
    const cfg: BuildConfig
    /** The route parameter `id`. */
    const idParam: Json
    var isEdit: bool
    var monitor: Json
    var monitorId: string
    var mac: string
    var selectedMachine: string
    var machines: seq<Json>
    var busy: bool
    var error: Option<string>
    /** The handler's own copies of what a pending submit was started with. */
    var editing: bool
    var targetId: string
    var target: string
    var monitorPending: bool
    var machinesPending: bool
    /** Every request issued so far, oldest first. */
    var requests: seq<Request>
    var alerts: seq<Alert>
    var navigation: seq<Navigation>

    /**
     * Mounting: the machines fetch, then for a non-empty `id` parameter the
     * switch to editing and the monitor lookup. (The `[isEdit]` effect's
     * clearing at mount finds the form already empty.)
     */
    constructor (cfg: BuildConfig, idParam: Json)
      ensures this.cfg == cfg && this.idParam == idParam
      ensures isEdit == EditsFor(idParam) && monitor == Null
      ensures monitorId == "" && mac == "" && selectedMachine == "" && machines == []
      ensures !busy && error.None?
      ensures monitorPending == EditsFor(idParam) && machinesPending
      ensures requests == [Request(GET, ApiBase(cfg) + "/machines", None)]
                          + (if EditsFor(idParam) then [Request(GET, ApiBase(cfg) + "/monitors", None)] else [])
      ensures alerts == [] && navigation == []
    {
      this.cfg := cfg;
      this.idParam := idParam;
      isEdit := EditsFor(idParam);
      monitor := Null;
      monitorId := "";
      mac := "";
      selectedMachine := "";
      machines := [];
      busy := false;
      error := None;
      editing := false;
      targetId := "";
      target := "";
      monitorPending := EditsFor(idParam);
      machinesPending := true;
      requests := [Request(GET, ApiBase(cfg) + "/machines", None)]
                  + (if EditsFor(idParam) then [Request(GET, ApiBase(cfg) + "/monitors", None)] else []);
      alerts := [];
      navigation := [];
    }

    /**
     * The lookup settles; the prefill effect then copies a truthy monitor's
     * `String(id || '')`, `mac || ''` and `name || machine_name || ''` into the form.
     */
    method RespondMonitor(resp: Response)
      requires monitorPending
      modifies this`monitorPending, this`monitor, this`monitorId, this`mac, this`selectedMachine
      ensures !monitorPending
      ensures monitor == MonitorFound(resp, ToText(idParam))
      ensures isEdit && Truthy(monitor) ==>
        && monitorId == FieldText(Get(monitor, "id"))
        && mac == FieldText(Get(monitor, "mac"))
        && selectedMachine == FieldText(Or(Get(monitor, "name"), Get(monitor, "machine_name")))
      ensures !(isEdit && Truthy(monitor)) ==>
        monitorId == old(monitorId) && mac == old(mac) && selectedMachine == old(selectedMachine)
    {
      var found := MonitorFound(resp, ToText(idParam));
      monitorPending := false;
      monitor := found;
      if isEdit && Truthy(found) {
        monitorId := FieldText(Get(found, "id"));
        mac := FieldText(Get(found, "mac"));
        selectedMachine := FieldText(Or(Get(found, "name"), Get(found, "machine_name")));
      }
    }

    /** The machines fetch settles: the list sorted by name, or `[]` on any failure. */
    method RespondMachines(resp: Response)
      requires machinesPending
      modifies this`machines, this`machinesPending
      ensures !machinesPending && machines == SortedMachines(resp)
    {
      machinesPending := false;
      machines := SortedMachines(resp);
    }

    /** Typing in the inputs and choosing in the picker. */
    method Edit(newId: string, newMac: string, machine: string)
      modifies this`monitorId, this`mac, this`selectedMachine
      ensures monitorId == newId && mac == newMac && selectedMachine == machine
    {
      monitorId := newId;
      mac := newMac;
      selectedMachine := machine;
    }

    /** The Cancel button, `router.back()`: disabled while busy, rendered in both modes. */
    method Cancel()
      modifies this`navigation
      ensures navigation == old(navigation) + (if old(busy) then [] else [Back])
    {
      if !busy {
        navigation := navigation + [Back];
      }
    }

    /**
     * `handleSubmit()` up to its first `await`: nothing while busy; otherwise
     * the error is cleared and the plan is carried out. Only an issued request
     * leaves `busy` set.
     */
    method Submit() returns (started: bool)
      modifies this`busy, this`error, this`editing, this`targetId, this`target, this`requests, this`alerts
      ensures started == (!old(busy) && PlanSubmit(cfg, old(isEdit), old(monitor), old(monitorId), old(mac), old(selectedMachine)).Issued?)
      ensures busy == (old(busy) || started)
      ensures requests == old(requests)
        + (if started then [PlanSubmit(cfg, old(isEdit), old(monitor), old(monitorId), old(mac), old(selectedMachine)).request] else [])
      ensures var p := PlanSubmit(cfg, old(isEdit), old(monitor), old(monitorId), old(mac), old(selectedMachine));
        alerts == old(alerts) + (if !old(busy) && p.Refused? then [p.alert] else [])
      ensures var p := PlanSubmit(cfg, old(isEdit), old(monitor), old(monitorId), old(mac), old(selectedMachine));
        error == (if old(busy) then old(error) else if p.Crashed? then Some(ErrorState(p.failure)) else None)
      ensures started ==> editing == old(isEdit) && targetId == IdText(old(monitor)) && target == old(selectedMachine)
      ensures !started ==> editing == old(editing) && targetId == old(targetId) && target == old(target)
    {
      started := false;
      if !busy {
        var p := PlanSubmit(cfg, isEdit, monitor, monitorId, mac, selectedMachine);
        Carry(p);
        started := p.Issued?;
      }
    }

    /** Carries out a plan past the busy guard, starting from a cleared error. */
    method Carry(p: Plan)
      requires !busy
      modifies this`busy, this`error, this`editing, this`targetId, this`target, this`requests, this`alerts
      ensures busy == p.Issued?
      ensures requests == old(requests) + (if p.Issued? then [p.request] else [])
      ensures alerts == old(alerts) + (if p.Refused? then [p.alert] else [])
      ensures error == if p.Crashed? then Some(ErrorState(p.failure)) else None
      ensures p.Issued? ==> editing == isEdit && targetId == IdText(monitor) && target == selectedMachine
      ensures !p.Issued? ==> editing == old(editing) && targetId == old(targetId) && target == old(target)
    {
      error := None;
      match p
      case Refused(a) =>
        alerts := alerts + [a];
      case Crashed(f) =>
        error := Some(ErrorState(f));
      case Issued(r) =>
        busy := true;
        editing := isEdit;
        targetId := IdText(monitor);
        target := selectedMachine;
        requests := requests + [r];
    }

    /** The request settles: alerts, the error line, `router.back()` or the clearing, and `busy` cleared. */
    method FinishSubmit(resp: Response)
      requires busy
      modifies this`monitorId, this`mac, this`selectedMachine, this`busy, this`error, this`alerts, this`navigation
      ensures var r := SettleSubmit(old(editing), old(targetId), old(target), resp);
        && alerts == old(alerts) + r.alerts
        && navigation == old(navigation) + (if r.back then [Back] else [])
        && error == r.error
        && (r.cleared ==> monitorId == "" && mac == "" && selectedMachine == "")
        && (!r.cleared ==> monitorId == old(monitorId) && mac == old(mac) && selectedMachine == old(selectedMachine))
      ensures !busy
    {
      var r := SettleSubmit(editing, targetId, target, resp);
      alerts := alerts + r.alerts;
      if r.back {
        navigation := navigation + [Back];
      }
      error := r.error;
      if r.cleared {
        monitorId := "";
        mac := "";
        selectedMachine := "";
      }
      busy := false;
    }
  }
}
