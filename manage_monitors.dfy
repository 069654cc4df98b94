/**
 * The monitor management screen: `/api/v1/monitors` polled at mount and
 * every 5000 ms, guarded by `mounted` like the status screen, plus an
 * immediate refresh after a card reports a delete or an unassign. A failed
 * refresh only logs, so the list stays as it was.
 */
module ManageMonitors {
  import opened Common
  import opened Js
  import opened Http
  import opened ApiConfig
  import opened ListShape
  import Submission

  /** The monitors list under the shared `/api/v1` base. */
  function MonitorsUrl(cfg: BuildConfig): (url: string)
    ensures DefaultApiUrl(cfg) <= url && url[|DefaultApiUrl(cfg)|..] == "/api/v1/monitors"
  {
    var base := Submission.ApiBase(cfg);
    assert base + "/monitors" == DefaultApiUrl(cfg) + "/api/v1/monitors";
    base + "/monitors"
  }

  /** The list after a refresh settles: the normalised data on success, the old list on failure. */
  function RefreshResult(resp: Response, current: seq<Json>): (r: seq<Json>)
    ensures Fetched(resp).None? ==> r == current
    ensures Fetched(resp).Some? ==> r == PollResult(resp, "monitors")
  {
    if Fetched(resp).Some? then PollResult(resp, "monitors") else current
  }

  /** A refresh and a poll agree whenever the request succeeded; they differ only in keeping the list on failure. */
  lemma RefreshAgreesWithPoll(resp: Response, current: seq<Json>)
    ensures RefreshResult(resp, current) == PollResult(resp, "monitors") <==>
      Fetched(resp).Some? || current == []
  {
  }

  class Screen {
    /** The `monitors` state. */
    var monitors: seq<Json>
    var mounted: bool
    var polling: bool
    /** Poll requests not yet settled. */
    var inFlight: nat
    /** Refresh requests not yet settled. */
    var refreshing: nat
    /** Every request issued so far, polls and refreshes, oldest first. */
    var requests: seq<Request>
    const url: string

    ghost predicate Valid()
      reads this
    {
      && (polling <==> mounted)
      && inFlight + refreshing <= |requests|
      && forall k :: 0 <= k < |requests| ==> requests[k] == Request(GET, url, None)
    }

    /** Mounting: the first fetch and the interval. */
    constructor (cfg: BuildConfig)
      ensures Valid()
      ensures url == MonitorsUrl(cfg)
      ensures monitors == [] && mounted && polling
      ensures requests == [Request(GET, url, None)] && inFlight == 1 && refreshing == 0
    {
      url := MonitorsUrl(cfg);
      monitors := [];
      mounted := true;
      polling := true;
      requests := [Request(GET, MonitorsUrl(cfg), None)];
      inFlight := 1;
      refreshing := 0;
    }

    /** An interval tick: a fetch while the interval is registered. */
    method Tick()
      requires Valid()
      modifies this`inFlight, this`requests
      ensures Valid()
      ensures requests == old(requests) + (if old(polling) then [Request(GET, url, None)] else [])
      ensures inFlight == old(inFlight) + (if old(polling) then 1 else 0)
    {
      if polling {
        requests := requests + [Request(GET, url, None)];
        inFlight := inFlight + 1;
      }
    }

    /** A poll settles: applied only while mounted. */
    method Respond(resp: Response)
      requires Valid() && inFlight > 0
      modifies this`monitors, this`inFlight, this`refreshing
      ensures Valid()
      ensures inFlight == old(inFlight) - 1 && refreshing == old(refreshing)
      ensures monitors == if old(mounted) then PollResult(resp, "monitors") else old(monitors)
    {
      inFlight := inFlight - 1;
      if mounted {
        monitors := PollResult(resp, "monitors");
      }
    }

    /** `handleMonitorDelete(monitorId)`: an immediate refetch, whatever the id. */
    method HandleMonitorDelete(monitorId: Json)
      requires Valid()
      modifies this`inFlight, this`refreshing, this`requests
      ensures Valid()
      ensures requests == old(requests) + [Request(GET, url, None)]
      ensures refreshing == old(refreshing) + 1 && inFlight == old(inFlight)
    {
      requests := requests + [Request(GET, url, None)];
      refreshing := refreshing + 1;
    }

    /** A refresh settles: applied mounted or not; a failure keeps the list. */
    method RespondRefresh(resp: Response)
      requires Valid() && refreshing > 0
      modifies this`monitors, this`inFlight, this`refreshing
      ensures Valid()
      ensures refreshing == old(refreshing) - 1 && inFlight == old(inFlight)
      ensures monitors == RefreshResult(resp, old(monitors))
    {
      refreshing := refreshing - 1;
      monitors := RefreshResult(resp, monitors);
    }

    /** The effect's cleanup. */
    method Unmount()
      requires Valid()
      modifies this`mounted, this`polling
      ensures Valid()
      ensures !mounted && !polling
    {
      mounted := false;
      polling := false;
    }
  }
}
