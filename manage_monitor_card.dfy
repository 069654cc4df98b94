/**
 * A monitor card's Remove action. On the web a blocking `confirm` offers
 * only the unassign; elsewhere a native dialog offers Cancel, "Unassign
 * Only" and "Delete Permanently". The request sets `busy`, and whatever its
 * outcome a `finally` clears it; the parent's `onDelete(monitor.id)` is
 * called, when it was supplied, only after an ok reply.
 *
 * `busy` guards the press of Remove, not the dialog's buttons: a second
 * press before a button is chosen opens a second dialog, and every dialog
 * can start its own request.
 */
module ManageMonitorCard {
  import opened Common
  import opened Js
  import opened Http
  import opened ApiConfig
  import opened Ui
  import opened Submission

  datatype Platform = Web | Native

  /** The two requests the card can make. */
  datatype Operation = Unassign | DeletePermanently

  /** A button of the native dialog. */
  datatype Button = CancelButton | UnassignButton | DeleteButton

  /** The operation a dialog button starts, if any. */
  function Chosen(b: Button): (op: Option<Operation>)
    ensures op.None? <==> b == CancelButton
    ensures b == UnassignButton ==> op == Some(Unassign)
    ensures b == DeleteButton ==> op == Some(DeletePermanently)
  {
    match b
    case CancelButton => None
    case UnassignButton => Some(Unassign)
    case DeleteButton => Some(DeletePermanently)
  }

  /** `POST ${base}/monitors/${id}/unassign` or `DELETE ${base}/monitors/${id}`. */
  function OperationRequest(cfg: BuildConfig, monitor: Json, op: Operation): (r: Request)
    ensures op == Unassign ==> r.verb == POST && r.url == ApiBase(cfg) + "/monitors/" + IdText(monitor) + "/unassign"
    ensures op == DeletePermanently ==> r.verb == DELETE && r.url == ApiBase(cfg) + "/monitors/" + IdText(monitor)
    ensures r.payload.None?
  {
    var url := ApiBase(cfg) + "/monitors/" + IdText(monitor);
    match op
    case Unassign => Request(POST, url + "/unassign", None)
    case DeletePermanently => Request(DELETE, url, None)
  }

  /** The alert a settled operation raises: success text on an ok reply, else the caught error's message. */
  function OperationAlert(monitor: Json, op: Operation, resp: Response): (a: Alert)
    ensures a.title == "Success" <==> resp.Reply? && resp.ok
    ensures CaughtFailure(resp).Some? ==>
      a == Alert("Error", (if op == Unassign then "Failed to unassign monitor: " else "Failed to delete monitor: ")
                          + CaughtFailure(resp).value.message)
  {
    match CaughtFailure(resp)
    case None =>
      var done := if op == Unassign then " has been unassigned" else " has been permanently deleted";
      Alert("Success", "Monitor " + IdText(monitor) + done)
    case Some(f) =>
      var lead := if op == Unassign then "Failed to unassign monitor: " else "Failed to delete monitor: ";
      Alert("Error", lead + f.message)
  }

  /** A failure of the request itself (here a network error) is reported with the transport's message. */
  lemma NetworkErrorReported(monitor: Json, message: string)
    ensures OperationAlert(monitor, Unassign, NetworkError(message)) == Alert("Error", "Failed to unassign monitor: " + message)
    ensures OperationAlert(monitor, DeletePermanently, NetworkError(message)) == Alert("Error", "Failed to delete monitor: " + message)
  {
  }

  /** A FastAPI `detail` on a failed delete reaches the alert verbatim. */
  lemma DetailReachesAlert(monitor: Json, status: int, detail: string)
    requires detail != []
    ensures OperationAlert(monitor, DeletePermanently, Reply(false, status, Parsed(Obj([Member("detail", Str(detail))]))))
      == Alert("Error", "Failed to delete monitor: " + detail)
  {
    DetailTextReported(detail);
  }

  class Card {
    const cfg: BuildConfig
    const monitor: Json
    const platform: Platform
    /** Whether the parent passed `onDelete`. */
    const hasOnDelete: bool
    var busy: bool
    /** Native dialogs on screen and not yet answered. */
    var dialogs: nat
    /** Operations started and not yet settled. */
    var pending: multiset<Operation>
    /** Every request issued so far, oldest first. */
    var requests: seq<Request>
    var alerts: seq<Alert>
    /** The arguments of every `onDelete` call so far. */
    var notified: seq<Json>

    /** Only the native dialog can start a permanent delete, and `busy` implies an unsettled operation. */
    ghost predicate Valid()
      reads this
    {
      && (platform == Web ==> dialogs == 0 && DeletePermanently !in pending)
      && (busy ==> |pending| > 0)
    }

    /** The card for one monitor; rendering reads `monitor.id`, so the monitor is not nullish. */
    constructor (cfg: BuildConfig, monitor: Json, platform: Platform, hasOnDelete: bool)
      requires !Nullish(monitor)
      ensures Valid()
      ensures this.cfg == cfg && this.monitor == monitor && this.platform == platform && this.hasOnDelete == hasOnDelete
      ensures !busy && dialogs == 0 && pending == multiset{}
      ensures requests == [] && alerts == [] && notified == []
    {
      this.cfg := cfg;
      this.monitor := monitor;
      this.platform := platform;
      this.hasOnDelete := hasOnDelete;
      busy := false;
      dialogs := 0;
      pending := multiset{};
      requests := [];
      alerts := [];
      notified := [];
    }

    /**
     * `handleRemove()`: nothing while busy; on the web the unassign starts
     * when `confirmed` (the answer of the blocking `confirm`); natively a
     * dialog opens and no request is made yet.
     */
    method Press(confirmed: bool)
      requires Valid()
      modifies this`busy, this`dialogs, this`pending, this`requests
      ensures Valid()
      ensures old(busy) ==> busy && dialogs == old(dialogs) && pending == old(pending) && requests == old(requests)
      ensures !old(busy) && platform == Native ==>
        dialogs == old(dialogs) + 1 && pending == old(pending) && requests == old(requests) && busy == old(busy)
      ensures !old(busy) && platform == Web && !confirmed ==>
        pending == old(pending) && requests == old(requests) && !busy
      ensures !old(busy) && platform == Web && confirmed ==>
        busy && pending == old(pending) + multiset{Unassign}
        && requests == old(requests) + [OperationRequest(cfg, monitor, Unassign)]
      ensures platform == Web ==> dialogs == 0
    {
      if busy {
        return;
      }
      if platform == Web {
        if confirmed {
          Start(Unassign);
        }
      } else {
        dialogs := dialogs + 1;
      }
    }

    /** A button of an open native dialog is chosen; the dialog does not consult `busy`. */
    method Choose(b: Button)
      requires Valid() && platform == Native && dialogs > 0
      modifies this`busy, this`dialogs, this`pending, this`requests
      ensures Valid()
      ensures dialogs == old(dialogs) - 1
      ensures Chosen(b).None? ==> busy == old(busy) && pending == old(pending) && requests == old(requests)
      ensures Chosen(b).Some? ==>
        busy && pending == old(pending) + multiset{Chosen(b).value}
        && requests == old(requests) + [OperationRequest(cfg, monitor, Chosen(b).value)]
    {
      dialogs := dialogs - 1;
      var op := Chosen(b);
      if op.Some? {
        Start(op.value);
      }
    }

    /** `setBusy(true)` and the request of `unassignMonitor` or `deleteMonitor`. */
    method Start(op: Operation)
      requires Valid() && (platform == Web ==> op == Unassign)
      modifies this`busy, this`pending, this`requests
      ensures Valid()
      ensures busy && pending == old(pending) + multiset{op}
      ensures requests == old(requests) + [OperationRequest(cfg, monitor, op)]
    {
      busy := true;
      pending := pending + multiset{op};
      requests := requests + [OperationRequest(cfg, monitor, op)];
    }

    /** A started operation settles: its alert, `onDelete(monitor.id)` after an ok reply, and `busy` cleared. */
    method Settle(op: Operation, resp: Response)
      requires Valid() && op in pending
      modifies this`busy, this`pending, this`alerts, this`notified
      ensures Valid()
      ensures pending == old(pending) - multiset{op}
      ensures alerts == old(alerts) + [OperationAlert(monitor, op, resp)]
      ensures notified == old(notified) + (if resp.Reply? && resp.ok && hasOnDelete then [Get(monitor, "id")] else [])
      ensures !busy
    {
      pending := pending - multiset{op};
      alerts := alerts + [OperationAlert(monitor, op, resp)];
      if CaughtFailure(resp).None? && hasOnDelete {
        notified := notified + [Get(monitor, "id")];
      }
      busy := false;
    }
  }
}
