/**
 * The add/edit machine form. The base URL comes from `getApiUrl()` once at
 * mount; until it arrives the base is empty and nothing that needs it is
 * fetched. A non-empty `mac` route parameter (which carries the machine's
 * name) switches to editing: the machine is fetched and prefilled, and while
 * editing a machine without a monitor MAC the monitor list is fetched for the
 * picker, sorted by id.
 *
 * A submit issues up to two requests in sequence: a reassign only (editing
 * a machine without a MAC), or the save (`PUT` when editing, `POST` when
 * adding) followed, when editing and the monitor id changed to a non-empty
 * value, by a reassign. Whatever happens past the busy guard, `finally`
 * clears the form and `busy`.
 */
module AddDevice {
  import opened Common
  import opened Text
  import opened Js
  import opened Http
  import opened Storage
  import opened ApiConfig
  import opened ListShape
  import opened Ui
  import opened Submission

  const InfoMessage := "Please select a monitor to assign to this machine"

  /** `apiBase ? `${apiBase}/api/v1` : ''`. */
  function BaseOf(apiBase: string): (base: string)
    ensures base == "" <==> apiBase == ""
    ensures apiBase != "" ==> base == apiBase + "/api/v1"
  {
    if apiBase != "" then apiBase + "/api/v1" else ""
  }

  /** `typeof macParam === "string" && macParam.length`: the parameter is a truthy string. */
  predicate EditsFor(macParam: Json): (e: bool)
    ensures e <==> macParam.Str? && Truthy(macParam)
  {
    macParam.Str? && macParam.s != []
  }

  /**
   * `GET ${base}/machines/${encodeURIComponent(name)}`: the name is one path
   * segment, and an unreserved name is sent as it is.
   */
  function MachineRequest(base: string, name: string): (r: Request)
    ensures r.verb == GET && r.payload == None
    ensures base + "/machines/" <= r.url
    ensures forall k :: |base| + 10 <= k < |r.url| ==> IsEncodedChar(r.url[k])
    ensures (forall k :: 0 <= k < |name| ==> IsUnreserved(name[k])) ==> r.url == base + "/machines/" + name
  {
    var enc := EncodeUriComponent(name);
    var url := base + "/machines/" + enc;
    assert forall k :: |base| + 10 <= k < |url| ==> url[k] == enc[k - |base| - 10];
    if forall k :: 0 <= k < |name| ==> IsUnreserved(name[k]) then
      EncodeUnreservedIsIdentity(name);
      Request(GET, url, None)
    else
      Request(GET, url, None)
  }

  /** `fetchDevice`'s new `device`: the parsed body of an ok reply, and `null` on every failure. */
  function DeviceOf(resp: Response): (d: Json)
    ensures resp.Reply? && resp.ok && resp.body.Parsed? ==> d == resp.body.value
    ensures !(resp.Reply? && resp.ok && resp.body.Parsed?) ==> d == Null
  {
    if resp.Reply? && resp.ok && resp.body.Parsed? then resp.body.value else Null
  }

  /** The editing monitors effect's condition: `isEdit && !mac && base`. */
  predicate WantsMonitors(isEdit: bool, mac: string, base: string) {
    isEdit && mac == "" && base != ""
  }

  // ---------------------------------------------------------------------------
  // The form

  datatype Fields = Fields(mac: string, id: string, name: string, location: string, machineType: string)

  /** `clearForm()`. */
  const Cleared := Fields("", "", "", "", "")

  /** `(id !== null && id !== undefined) ? String(id) : ''`: unlike `||`, it keeps a zero id. */
  function IdField(v: Json): (s: string)
    ensures Nullish(v) ==> s == ""
    ensures !Nullish(v) ==> s == ToText(v)
  {
    if Nullish(v) then "" else ToText(v)
  }

  /** A numeric id prefills as its decimal text, zero included, and reads back as the same number. */
  lemma NumericIdPrefill(n: int)
    ensures IdField(Num(n)) == IntToString(n) != ""
    ensures ParseInt(IdField(Num(n))) == Some(n)
    ensures IdField(Num(0)) == "0" && FieldText(Num(0)) == ""
  {
    ParseIntOfIntToString(n);
  }

  /** The prefill effect's values for a fetched machine. */
  function Prefill(device: Json): (f: Fields)
    ensures f.id == IdField(Get(device, "id"))
    ensures Get(device, "mac").Str? ==> f.mac == Get(device, "mac").s
    ensures !Truthy(Get(device, "mac")) ==> f.mac == ""
    ensures Get(device, "name").Str? ==> f.name == Get(device, "name").s
    ensures !Truthy(Get(device, "name")) ==> f.name == ""
    ensures Get(device, "location").Str? ==> f.location == Get(device, "location").s
    ensures !Truthy(Get(device, "location")) ==> f.location == ""
    ensures Get(device, "machine_type").Str? ==> f.machineType == Get(device, "machine_type").s
    ensures !Truthy(Get(device, "machine_type")) ==> f.machineType == ""
  {
    Fields(FieldText(Get(device, "mac")), IdField(Get(device, "id")), FieldText(Get(device, "name")),
           FieldText(Get(device, "location")), FieldText(Get(device, "machine_type")))
  }

  /** `parseInt(id, 10) || 0`. */
  function AddedId(id: string): (n: int)
    ensures ParseInt(id).Some? ==> n == ParseInt(id).value
    ensures ParseInt(id).None? ==> n == 0
  {
    ParseInt(id).GetOr(0)
  }

  /** The edit payload: the form's name, MAC, type and location, and no `id`. */
  function EditPayload(f: Fields): (p: Json)
    ensures p.Obj? && !HasKey(p.members, "id")
    ensures Get(p, "name") == Str(f.name) && Get(p, "mac") == Str(f.mac)
    ensures Get(p, "machine_type") == Str(f.machineType) && Get(p, "location") == Str(f.location)
  {
    var m := [Member("name", Str(f.name)), Member("mac", Str(f.mac)), Member("machine_type", Str(f.machineType)),
              Member("location", Str(f.location))];
    assert forall j :: 0 <= j < |m| ==> |m[j].key| != 2;
    LookupOfFour(m[0], m[1], m[2], m[3], "name");
    LookupOfThree(m[0], m[1], m[2], "name");
    LookupOfFour(m[0], m[1], m[2], m[3], "mac");
    LookupOfThree(m[0], m[1], m[2], "mac");
    LookupOfFour(m[0], m[1], m[2], m[3], "machine_type");
    LookupOfThree(m[0], m[1], m[2], "machine_type");
    LookupOfFour(m[0], m[1], m[2], m[3], "location");
    Obj(m)
  }

  /** The add payload: the same fields and `parseInt(id, 10) || 0` as `id`. */
  function AddPayload(f: Fields): (p: Json)
    ensures p.Obj? && Get(p, "id") == Num(AddedId(f.id))
    ensures Get(p, "name") == Str(f.name) && Get(p, "mac") == Str(f.mac)
    ensures Get(p, "machine_type") == Str(f.machineType) && Get(p, "location") == Str(f.location)
  {
    var m := [Member("name", Str(f.name)), Member("id", Num(AddedId(f.id))), Member("mac", Str(f.mac)),
              Member("machine_type", Str(f.machineType)), Member("location", Str(f.location))];
    LookupOfFive(m[0], m[1], m[2], m[3], m[4], "id");
    LookupOfThree(m[0], m[1], m[2], "id");
    LookupOfFive(m[0], m[1], m[2], m[3], m[4], "name");
    LookupOfThree(m[0], m[1], m[2], "name");
    LookupOfFive(m[0], m[1], m[2], m[3], m[4], "mac");
    LookupOfThree(m[0], m[1], m[2], "mac");
    LookupOfFive(m[0], m[1], m[2], m[3], m[4], "machine_type");
    LookupOfFive(m[0], m[1], m[2], m[3], m[4], "location");
    Obj(m)
  }

  /**
   * The JSON body of the save: the form's name, MAC, type and location;
   * no `id` when editing, and `parseInt(id, 10) || 0` when adding.
   */
  function Payload(isEdit: bool, f: Fields): (p: Json)
    ensures p.Obj?
    ensures isEdit ==> !HasKey(p.members, "id")
    ensures !isEdit ==> Get(p, "id") == Num(AddedId(f.id))
    ensures Get(p, "name") == Str(f.name) && Get(p, "mac") == Str(f.mac)
    ensures Get(p, "machine_type") == Str(f.machineType) && Get(p, "location") == Str(f.location)
  {
    if isEdit then EditPayload(f) else AddPayload(f)
  }

  /** `PUT ${base}/devices/${mac}` when editing, `POST ${base}/devices` when adding. */
  function SaveRequest(base: string, isEdit: bool, f: Fields): (r: Request)
    ensures isEdit ==> r.verb == PUT && r.url == base + "/devices/" + f.mac
    ensures !isEdit ==> r.verb == POST && r.url == base + "/devices"
    ensures r.payload == Some(Payload(isEdit, f))
  {
    if isEdit then Request(PUT, base + "/devices/" + f.mac, Some(Payload(isEdit, f)))
    else Request(POST, base + "/devices", Some(Payload(isEdit, f)))
  }

  // ---------------------------------------------------------------------------
  // handleSubmit

  /** Which request of a submit is outstanding. */
  datatype Stage = Idle | AssigningOnly | Saving | Reassigning

  /** What a submit does past the busy guard before its first `await`. */
  datatype Plan = Refused(alert: Alert) | Issued(request: Request, stage: Stage)

  function PlanSubmit(base: string, isEdit: bool, f: Fields): (p: Plan)
    ensures p.Refused? <==> isEdit && f.mac == "" && f.id == ""
    ensures p.Refused? ==> p.alert == Alert("Info", InfoMessage)
    ensures isEdit && f.mac == "" && f.id != "" ==> p == Issued(ReassignRequest(base, f.id, f.name), AssigningOnly)
    ensures !(isEdit && f.mac == "") ==> p == Issued(SaveRequest(base, isEdit, f), Saving)
  {
    if isEdit && f.mac == "" then
      if f.id == "" then Refused(Alert("Info", InfoMessage))
      else Issued(ReassignRequest(base, f.id, f.name), AssigningOnly)
    else Issued(SaveRequest(base, isEdit, f), Saving)
  }

  /** What the submit knew when it started: it reads these, not later edits. */
  datatype Snapshot = Snapshot(isEdit: bool, fields: Fields, originalId: string, base: string)

  /** How one settled request of a submit continues: a follow-up request, or the end of the handler. */
  datatype Next = Continue(request: Request) | Done(alerts: seq<Alert>, error: Option<string>, back: bool)

  function StepSubmit(stage: Stage, s: Snapshot, resp: Response): (n: Next)
    requires stage != Idle
    ensures n.Continue? <==>
      stage == Saving && resp.Reply? && resp.ok && resp.body.Parsed?
      && s.isEdit && s.fields.id != s.originalId && s.fields.id != ""
    ensures n.Continue? ==> n.request == ReassignRequest(s.base, s.fields.id, s.fields.name)
    ensures n.Done? ==> (n.error.None? <==> resp.Reply? && resp.ok && !(stage == Saving && resp.body.Unparsable?))
    ensures n.Done? && n.error.Some? ==> |n.error.value| <= 300
    ensures n.Done? ==> (n.back <==> n.error.None? && (stage == AssigningOnly || s.isEdit))
    ensures n.Done? && stage == AssigningOnly && n.error.None? ==>
      n.alerts == [Alert("Success", "Monitor " + s.fields.id + " assigned to " + s.fields.name)]
    ensures n.Done? && stage != AssigningOnly && n.error.None? ==> n.alerts == []
  {
    match stage
    case AssigningOnly =>
      (match CheckedReply(resp, "Error", Some("Monitor assignment failed: "), "Reassignment failed")
       case Passed => Done([Alert("Success", "Monitor " + s.fields.id + " assigned to " + s.fields.name)], None, true)
       case Stopped(a, f) => Done(if a.Some? then [a.value] else [], Some(ErrorState(f)), false))
    case Saving =>
      (match CheckedReply(resp, "Error", None, "Request failed")
       case Stopped(a, f) => Done(if a.Some? then [a.value] else [], Some(ErrorState(f)), false)
       case Passed =>
         if resp.body.Unparsable? then Done([], Some(ErrorState(ParseFailure)), false)
         else if s.isEdit && s.fields.id != s.originalId && s.fields.id != "" then
           Continue(ReassignRequest(s.base, s.fields.id, s.fields.name))
         else Done([], None, s.isEdit))
    case Reassigning =>
      (match CheckedReply(resp, "Error", Some("Device updated but reassignment failed: "), "Reassignment failed")
       case Passed => Done([], None, s.isEdit)
       case Stopped(a, f) => Done(if a.Some? then [a.value] else [], Some(ErrorState(f)), false))
  }

  /** A failed save alerts the backend's reason on its own, without a prefix. */
  lemma FailedSaveAlertsReason(s: Snapshot, status: int, reason: string)
    requires reason != []
    ensures StepSubmit(Saving, s, Reply(false, status, Parsed(Obj([Member("detail", Str(reason))])))).alerts
      == [Alert("Error", reason)]
  {
    DetailTextReported(reason);
  }

  class Screen {
    const cfg: BuildConfig
    /** The route parameter `mac` (a machine name). */
    const macParam: Json
    var apiBase: string
    var baseLoaded: bool
    var isEdit: bool
    var device: Json
    var form: Fields
    var originalId: string
    var availableMonitors: seq<Json>
    var busy: bool
    var error: Option<string>
    var stage: Stage
    var snapshot: Snapshot
    /** Machine and monitor fetches not yet settled. */
    var devicePending: nat
    var monitorsPending: nat
    /** Every request issued so far, oldest first. */
    var requests: seq<Request>
    var alerts: seq<Alert>
    var navigation: seq<Navigation>

    /**
     * `busy` is exactly "a submit request is outstanding"; a follow-up
     * reassign only ever belongs to an edit whose monitor id changed to a
     * non-empty value; editing only starts once the base is known.
     */
    ghost predicate Valid()
      reads this`busy, this`stage, this`snapshot, this`isEdit, this`baseLoaded, this`apiBase
    {
      && (busy <==> stage != Idle)
      && (stage == Reassigning ==> snapshot.isEdit && snapshot.fields.id != snapshot.originalId && snapshot.fields.id != "")
      && (stage == AssigningOnly ==> snapshot.isEdit && snapshot.fields.mac == "" && snapshot.fields.id != "")
      && (isEdit ==> baseLoaded && EditsFor(macParam) && BaseOf(apiBase) != "")
    }

    /** Mounting: `getApiUrl()` starts; with the base still empty no other effect fetches. */
    constructor (cfg: BuildConfig, macParam: Json)
      ensures Valid()
      ensures this.cfg == cfg && this.macParam == macParam
      ensures apiBase == "" && !baseLoaded && !isEdit && device == Null
      ensures form == Cleared && originalId == "" && availableMonitors == []
      ensures !busy && error.None? && stage == Idle
      ensures devicePending == 0 && monitorsPending == 0
      ensures requests == [] && alerts == [] && navigation == []
    {
      this.cfg := cfg;
      this.macParam := macParam;
      apiBase := "";
      baseLoaded := false;
      isEdit := false;
      device := Null;
      form := Cleared;
      originalId := "";
      availableMonitors := [];
      busy := false;
      error := None;
      stage := Idle;
      snapshot := Snapshot(false, Cleared, "", "");
      devicePending := 0;
      monitorsPending := 0;
      requests := [];
      alerts := [];
      navigation := [];
    }

    /** The monitors effect, run because one of `isEdit`, `mac` or `base` changed. */
    method MonitorsEffect()
      modifies this`monitorsPending, this`requests
      ensures WantsMonitors(isEdit, form.mac, BaseOf(apiBase)) ==>
        requests == old(requests) + [Request(GET, BaseOf(apiBase) + "/monitors", None)]
        && monitorsPending == old(monitorsPending) + 1
      ensures !WantsMonitors(isEdit, form.mac, BaseOf(apiBase)) ==>
        requests == old(requests) && monitorsPending == old(monitorsPending)
    {
      if WantsMonitors(isEdit, form.mac, BaseOf(apiBase)) {
        requests := requests + [Request(GET, BaseOf(apiBase) + "/monitors", None)];
        monitorsPending := monitorsPending + 1;
      }
    }

    /**
     * `getApiUrl()` resolves and becomes `apiBase`. With a non-empty base and
     * a non-empty `mac` parameter, editing starts: the machine is fetched and
     * then, the MAC being still empty, the monitor list.
     */
    method BaseLoaded(store: KeyValueStore, readFails: bool)
      requires Valid() && !baseLoaded
      modifies this`apiBase, this`baseLoaded, this`isEdit, this`devicePending, this`monitorsPending, this`requests
      ensures Valid()
      ensures baseLoaded && apiBase == ResolvedUrl(store.items, cfg, readFails)
      ensures var base := BaseOf(apiBase);
        && isEdit == (old(isEdit) || (base != "" && EditsFor(macParam)))
        && (base != "" && EditsFor(macParam) ==>
             requests == old(requests) + [MachineRequest(base, macParam.s)]
                         + (if form.mac == "" then [Request(GET, base + "/monitors", None)] else [])
             && devicePending == old(devicePending) + 1)
        && (!(base != "" && EditsFor(macParam)) ==> requests == old(requests) && devicePending == old(devicePending))
    {
      var url := GetApiUrl(store, cfg, readFails);
      apiBase := url;
      baseLoaded := true;
      if BaseOf(url) != "" && EditsFor(macParam) {
        StartEditing();
      }
    }

    /** The edit effect once the base is known: `isEdit` is set, the machine fetched, then the monitors effect. */
    method StartEditing()
      requires Valid() && baseLoaded && BaseOf(apiBase) != "" && EditsFor(macParam)
      modifies this`isEdit, this`devicePending, this`monitorsPending, this`requests
      ensures Valid() && isEdit
      ensures requests == old(requests) + [MachineRequest(BaseOf(apiBase), macParam.s)]
                          + (if form.mac == "" then [Request(GET, BaseOf(apiBase) + "/monitors", None)] else [])
      ensures devicePending == old(devicePending) + 1
    {
      isEdit := true;
      requests := requests + [MachineRequest(BaseOf(apiBase), macParam.s)];
      devicePending := devicePending + 1;
      MonitorsEffect();
    }

    /**
     * The machine fetch settles; a truthy machine prefills the form and its
     * id becomes `originalId`, and a prefill that changes the MAC reruns the
     * monitors effect.
     */
    method RespondDevice(resp: Response)
      requires Valid() && devicePending > 0
      modifies this`device, this`form, this`originalId, this`devicePending, this`monitorsPending, this`requests
      ensures Valid()
      ensures devicePending == old(devicePending) - 1
      ensures device == DeviceOf(resp)
      ensures isEdit && Truthy(device) ==> form == Prefill(device) && originalId == Prefill(device).id
      ensures !(isEdit && Truthy(device)) ==> form == old(form) && originalId == old(originalId)
      ensures form.mac != old(form.mac) && WantsMonitors(isEdit, form.mac, BaseOf(apiBase)) ==>
        requests == old(requests) + [Request(GET, BaseOf(apiBase) + "/monitors", None)]
      ensures !(form.mac != old(form.mac) && WantsMonitors(isEdit, form.mac, BaseOf(apiBase))) ==> requests == old(requests)
    {
      var d := DeviceOf(resp);
      devicePending := devicePending - 1;
      device := d;
      if isEdit && Truthy(d) {
        Fill(Prefill(d));
      }
    }

    /** The prefill effect: the form and `originalId` take `f`, and a changed MAC reruns the monitors effect. */
    method Fill(f: Fields)
      requires Valid()
      modifies this`form, this`originalId, this`monitorsPending, this`requests
      ensures Valid()
      ensures form == f && originalId == f.id
      ensures f.mac != old(form.mac) && WantsMonitors(isEdit, f.mac, BaseOf(apiBase)) ==>
        requests == old(requests) + [Request(GET, BaseOf(apiBase) + "/monitors", None)]
      ensures !(f.mac != old(form.mac) && WantsMonitors(isEdit, f.mac, BaseOf(apiBase))) ==> requests == old(requests)
    {
      var changed := f.mac != form.mac;
      form := f;
      originalId := f.id;
      if changed {
        MonitorsEffect();
      }
    }

    /** The monitor list settles: sorted by id, or `[]` on any failure. */
    method RespondMonitors(resp: Response)
      requires Valid() && monitorsPending > 0
      modifies this`availableMonitors, this`monitorsPending
      ensures Valid()
      ensures monitorsPending == old(monitorsPending) - 1
      ensures availableMonitors == SortedMonitors(resp)
    {
      monitorsPending := monitorsPending - 1;
      availableMonitors := SortedMonitors(resp);
    }

    /** Typing in the inputs and choosing a monitor; a changed MAC reruns the monitors effect. */
    method Edit(f: Fields)
      requires Valid()
      modifies this`form, this`monitorsPending, this`requests
      ensures Valid()
      ensures form == f
      ensures f.mac != old(form.mac) && WantsMonitors(isEdit, f.mac, BaseOf(apiBase)) ==>
        requests == old(requests) + [Request(GET, BaseOf(apiBase) + "/monitors", None)]
      ensures !(f.mac != old(form.mac) && WantsMonitors(isEdit, f.mac, BaseOf(apiBase))) ==> requests == old(requests)
    {
      var oldMac := form.mac;
      form := f;
      if f.mac != oldMac {
        MonitorsEffect();
      }
    }

    /**
     * The Cancel button, rendered only while editing: `router.back()`. Unlike
     * the submit, it is neither guarded nor disabled while busy.
     */
    method Cancel()
      requires Valid()
      modifies this`navigation
      ensures Valid()
      ensures navigation == old(navigation) + (if isEdit then [Back] else [])
    {
      if isEdit {
        navigation := navigation + [Back];
      }
    }

    /** `finally { clearForm(); setBusy(false) }`; clearing a MAC reruns the monitors effect. */
    method Finally()
      requires Valid() && (stage == Idle || busy)
      modifies this`form, this`busy, this`stage, this`monitorsPending, this`requests
      ensures form == Cleared && !busy && stage == Idle
      ensures Valid()
      ensures old(form.mac) != "" && WantsMonitors(isEdit, "", BaseOf(apiBase)) ==>
        requests == old(requests) + [Request(GET, BaseOf(apiBase) + "/monitors", None)]
      ensures !(old(form.mac) != "" && WantsMonitors(isEdit, "", BaseOf(apiBase))) ==> requests == old(requests)
    {
      var oldMac := form.mac;
      form := Cleared;
      busy := false;
      stage := Idle;
      if oldMac != "" {
        MonitorsEffect();
      }
    }

    /**
     * `handleSubmit()` up to its first `await`: nothing while busy; a refused
     * reassign-only submit alerts and runs `finally` at once; otherwise the
     * first request is issued with `busy` set.
     */
    method Submit() returns (started: bool)
      requires Valid()
      modifies this`form, this`busy, this`error, this`stage, this`snapshot, this`monitorsPending, this`requests, this`alerts
      ensures Valid()
      ensures var p := PlanSubmit(BaseOf(old(apiBase)), old(isEdit), old(form));
        && started == (!old(busy) && p.Issued?)
        && (started ==> requests == old(requests) + [p.request] && stage == p.stage && busy && form == old(form)
                        && snapshot == Snapshot(old(isEdit), old(form), old(originalId), BaseOf(old(apiBase))))
        && (!old(busy) && p.Refused? ==> form == Cleared && !busy && stage == Idle)
        && alerts == old(alerts) + (if !old(busy) && p.Refused? then [p.alert] else [])
      ensures old(busy) ==> form == old(form) && requests == old(requests) && stage == old(stage) && busy
      ensures error == if old(busy) then old(error) else None
    {
      started := false;
      if !busy {
        var p := PlanSubmit(BaseOf(apiBase), isEdit, form);
        Carry(p);
        started := p.Issued?;
      }
    }

    /** What `Valid` needs of a plan for the current form (all of which `PlanSubmit` guarantees). */
    predicate Fits(p: Plan)
      reads this
    {
      && (p.Refused? ==> form.mac == "")
      && (p.Issued? ==> p.stage == AssigningOnly || p.stage == Saving)
      && (p.Issued? && p.stage == AssigningOnly ==> isEdit && form.mac == "" && form.id != "")
    }

    /**
     * Carries out a plan past the busy guard, from a cleared error. A
     * refused submit clears the form; its MAC is already empty, so the
     * monitors effect does not rerun.
     */
    method Carry(p: Plan)
      requires Valid() && !busy && Fits(p)
      modifies this`form, this`busy, this`error, this`stage, this`snapshot, this`monitorsPending, this`requests, this`alerts
      ensures Valid()
      ensures p.Issued? ==> requests == old(requests) + [p.request] && stage == p.stage && busy && form == old(form)
                            && snapshot == Snapshot(isEdit, old(form), originalId, BaseOf(apiBase))
      ensures p.Refused? ==> requests == old(requests) && form == Cleared && !busy && stage == Idle
      ensures alerts == old(alerts) + (if p.Refused? then [p.alert] else [])
      ensures error.None?
    {
      error := None;
      match p
      case Refused(a) =>
        alerts := alerts + [a];
        Finally();
      case Issued(r, st) =>
        snapshot := Snapshot(isEdit, form, originalId, BaseOf(apiBase));
        requests := requests + [r];
        stage := st;
        busy := true;
    }

    /**
     * The outstanding request of a submit settles: either the follow-up
     * reassign is issued, or the handler ends with its alerts, error line and
     * navigation, and `finally` clears the form and `busy`.
     */
    method Settle(resp: Response) returns (finished: bool)
      requires Valid() && busy
      modifies this`form, this`busy, this`error, this`stage, this`monitorsPending, this`requests, this`alerts, this`navigation
      ensures Valid()
      ensures var n := StepSubmit(old(stage), old(snapshot), resp);
        && finished == n.Done?
        && (n.Continue? ==> requests == old(requests) + [n.request] && stage == Reassigning && busy
                            && form == old(form) && alerts == old(alerts) && error == old(error)
                            && navigation == old(navigation))
        && (n.Done? ==> alerts == old(alerts) + n.alerts && error == n.error
                        && navigation == old(navigation) + (if n.back then [Back] else [])
                        && form == Cleared && !busy && stage == Idle)
    {
      var n := StepSubmit(stage, snapshot, resp);
      match n
      case Continue(r) =>
        requests := requests + [r];
        stage := Reassigning;
        finished := false;
      case Done(raised, err, back) =>
        Conclude(raised, err, back);
        finished := true;
    }

    /** The end of the handler: its alerts, error line and navigation, then `finally`. */
    method Conclude(raised: seq<Alert>, err: Option<string>, back: bool)
      requires Valid() && busy
      modifies this`form, this`busy, this`error, this`stage, this`monitorsPending, this`requests, this`alerts, this`navigation
      ensures Valid()
      ensures alerts == old(alerts) + raised && error == err
      ensures navigation == old(navigation) + (if back then [Back] else [])
      ensures form == Cleared && !busy && stage == Idle
    {
      alerts := alerts + raised;
      error := err;
      if back {
        navigation := navigation + [Back];
      }
      Finally();
    }
  }
}
