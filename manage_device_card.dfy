/**
 * A device card's Remove action: it asks the backend how many polls the
 * device has, requests a confirmation when there are some, deletes the
 * device, and reports the deletion to the list only when the backend
 * confirms it.
 */
module ManageDeviceCard {
  import opened Common
  import opened Text
  import opened Js
  import opened Http
  import opened ApiConfig
  import opened Ui

  /** `checkPolls(mac)`: the `count` of an ok reply when it is a number; `null` on every other outcome. */
  function CheckPolls(resp: Response): (count: Option<int>)
    ensures count.Some? <==>
      resp.Reply? && resp.ok && resp.body.Parsed? && Get(resp.body.value, "count").Num?
    ensures count.Some? ==> count.value == Get(resp.body.value, "count").n
  {
    if resp.Reply? && resp.ok && resp.body.Parsed? && Get(resp.body.value, "count").Num?
    then Some(Get(resp.body.value, "count").n)
    else None
  }

  /**
   * The poll check's URL, built with `??`; the MAC goes into the path
   * unencoded, and a missing one as its text.
   */
  function CheckPollUrl(cfg: BuildConfig, mac: Json): (u: string)
    ensures mac.Str? ==> u == CoalescedBase(cfg) + "/api/v1/checkPoll/" + mac.s
    ensures mac == Undefined ==> u == CoalescedBase(cfg) + "/api/v1/checkPoll/undefined"
    ensures mac == Null ==> u == CoalescedBase(cfg) + "/api/v1/checkPoll/null"
  {
    CoalescedBase(cfg) + "/api/v1/checkPoll/" + ToText(mac)
  }

  /**
   * The delete's URL, built with `||`; the MAC goes into the path
   * unencoded, and a missing one as its text.
   */
  function DeleteUrl(cfg: BuildConfig, mac: Json): (u: string)
    ensures mac.Str? ==> u == DefaultApiUrl(cfg) + "/api/v1/devices/" + mac.s
    ensures mac == Undefined ==> u == DefaultApiUrl(cfg) + "/api/v1/devices/undefined"
    ensures mac == Null ==> u == DefaultApiUrl(cfg) + "/api/v1/devices/null"
  {
    DefaultApiUrl(cfg) + "/api/v1/devices/" + ToText(mac)
  }

  /** The two requests go to different servers exactly when the env value is set but empty. */
  lemma BasesDisagree(cfg: BuildConfig)
    ensures CoalescedBase(cfg) != DefaultApiUrl(cfg) <==>
      cfg.envBase == Some([]) && StripTrailingSlash(cfg.extraBase.GetOr([])) != []
  {
    CoalescedDiffersFromDefault(cfg);
  }

  /**
   * One run of `handleDelete(mac)` past the busy guard: the requests issued,
   * the poll count a confirmation was asked for, the alerts, whether
   * `onDelete(mac)` was called, and whether the handler's promise rejected
   * (it has no `catch`).
   */
  datatype DeleteRun = DeleteRun(requests: seq<Request>, asked: Option<int>, alerts: seq<Alert>, notified: bool, rejected: bool)

  function RunDelete(cfg: BuildConfig, mac: Json, pollResp: Response, confirmed: bool, deleteResp: Response): (r: DeleteRun)
    ensures r.asked.Some? <==> CheckPolls(pollResp).Some? && CheckPolls(pollResp).value > 0
    ensures r.asked.Some? ==> r.asked == CheckPolls(pollResp)
    ensures r.asked.Some? && !confirmed ==> r.requests == [Request(POST, CheckPollUrl(cfg, mac), None)] && !r.notified
    ensures r.asked.None? || confirmed ==>
      r.requests == [Request(POST, CheckPollUrl(cfg, mac), None), Request(DELETE, DeleteUrl(cfg, mac), None)]
    ensures r.notified <==>
      (r.asked.None? || confirmed) && deleteResp.Reply? && deleteResp.ok && deleteResp.body.Parsed?
      && Get(deleteResp.body.value, "status") == Str("deleted")
    ensures r.alerts != [] <==> (r.asked.None? || confirmed) && deleteResp.Reply? && !deleteResp.ok
    ensures r.alerts != [] ==> r.alerts == [Alert("Delete failed", "")]
    ensures r.rejected <==>
      && (r.asked.None? || confirmed)
      && (deleteResp.NetworkError? || (deleteResp.ok && (deleteResp.body.Unparsable? || Nullish(deleteResp.body.value))))
    ensures r.rejected ==> !r.notified
  {
    var poll := Request(POST, CheckPollUrl(cfg, mac), None);
    var count := CheckPolls(pollResp);
    var asked := if count.Some? && count.value > 0 then count else None;
    if asked.Some? && !confirmed then DeleteRun([poll], asked, [], false, false)
    else
      var requests := [poll, Request(DELETE, DeleteUrl(cfg, mac), None)];
      match deleteResp
      case NetworkError(_) => DeleteRun(requests, asked, [], false, true)
      case Reply(ok, _, body) =>
        if !ok then DeleteRun(requests, asked, [Alert("Delete failed", "")], false, false)
        else if body.Unparsable? || body.value.Undefined? || body.value.Null? then DeleteRun(requests, asked, [], false, true)
        else DeleteRun(requests, asked, [], Get(body.value, "status") == Str("deleted"), false)
  }

  /** A failed poll check is treated as "no polls": the delete goes ahead without asking. */
  lemma FailedCheckSkipsConfirmation(cfg: BuildConfig, mac: Json, message: string, confirmed: bool, deleteResp: Response)
    ensures RunDelete(cfg, mac, NetworkError(message), confirmed, deleteResp).asked.None?
    ensures |RunDelete(cfg, mac, NetworkError(message), confirmed, deleteResp).requests| == 2
  {
  }

  class Card {
    const cfg: BuildConfig
    const mac: Json
    var busy: bool
    /** Every request issued so far, oldest first. */
    var requests: seq<Request>
    var alerts: seq<Alert>

    constructor (cfg: BuildConfig, mac: Json)
      ensures this.cfg == cfg && this.mac == mac
      ensures !busy && requests == [] && alerts == []
    {
      this.cfg := cfg;
      this.mac := mac;
      busy := false;
      requests := [];
      alerts := [];
    }

    /** A press of Remove: the handler returns at once while `busy`. */
    method Press() returns (started: bool)
      modifies this`busy
      ensures started == !old(busy)
      ensures busy
    {
      started := !busy;
      busy := true;
    }

    /** The started handler runs to its end; `finally` clears `busy` on every path. */
    method Run(pollResp: Response, confirmed: bool, deleteResp: Response) returns (notified: bool, rejected: bool)
      requires busy
      modifies this`busy, this`requests, this`alerts
      ensures var r := RunDelete(cfg, mac, pollResp, confirmed, deleteResp);
        && requests == old(requests) + r.requests
        && alerts == old(alerts) + r.alerts
        && notified == r.notified && rejected == r.rejected
      ensures !busy
    {
      var r := RunDelete(cfg, mac, pollResp, confirmed, deleteResp);
      requests := requests + r.requests;
      alerts := alerts + r.alerts;
      notified := r.notified;
      rejected := r.rejected;
      busy := false;
    }
  }
}
