/**
 * The decision logic of `!start`, `!stop` and `!status` once the guild's
 * server object is known. Each command is specified by a function of the
 * observations the server's fetches will make (`StartRun`, `StopRun`,
 * `StatusRun`); the methods run the command against a `Server` and are
 * proved to do exactly what the function says.
 */
module Lifecycle {

  import opened Wrappers
  import opened Aternos
  import opened Display
  import opened Text

  /** `max_checks`: the start poll looks at most this many times before its final fetch. */
  const MaxChecks: nat := 60

  datatype StartOutcome =
    | AlreadyOnline                  // the first fetch read `online`: no start
    | AlreadyStarting                // the first fetch read `starting`: no start
    | Started(checks: nat)           // `online` seen at this (1-based) check of the poll
    | StillStarting(status: string)  // every check missed `online`, and so did the final fetch
    | OnlineAtFinalFetch             // every check missed `online`, the final fetch read it
    | StartFailed                    // a fetch or the start call raised

  /** What the poll loop did: its outcome, the fetches it made, and the statuses it showed. */
  datatype PollRun = PollRun(outcome: StartOutcome, polls: nat, shown: seq<string>)

  /** What check number `c` of a poll whose check 0 is fetch number `base` observes. */
  function CheckObs(script: seq<Observation>, base: nat, c: nat): Observation {
    ObsAt(script, base + c)
  }

  /** Check number `c` reads a status other than `online`. */
  predicate CheckWaiting(script: seq<Observation>, base: nat, c: nat) {
    WaitingAt(script, base + c)
  }

  /** Each of the first `n` checks reads a status other than `online`. */
  predicate ChecksWait(script: seq<Observation>, base: nat, n: nat) {
    forall i | 0 <= i < n :: CheckWaiting(script, base, i)
  }

  /**
   * The poll loop, from check number `checks` on, having shown `shown` so
   * far; check number `c` makes fetch number `base + c`. A status other than
   * `online` is shown (the loading message is edited) and the loop goes on;
   * after `MaxChecks` checks one final fetch decides the outcome. `polls`
   * counts every fetch of the loop, the earlier checks included.
   */
  function Poll(script: seq<Observation>, base: nat, checks: nat, shown: seq<string>): (r: PollRun)
    requires checks <= MaxChecks
    ensures checks < r.polls <= MaxChecks + 1
    ensures shown <= r.shown && |r.shown| == |shown| + r.polls - 1 - checks
    ensures r.outcome.Started? ==> r.outcome.checks == r.polls
    ensures r.outcome == OnlineAtFinalFetch || r.outcome.StillStarting? ==> r.polls == MaxChecks + 1
    ensures r.outcome != AlreadyOnline && r.outcome != AlreadyStarting
    decreases MaxChecks - checks
  {
    match CheckObs(script, base, checks)
    case Raised => PollRun(StartFailed, checks + 1, shown)
    case Fetched(s) =>
      if checks == MaxChecks then
        PollRun(if s.status == "online" then OnlineAtFinalFetch else StillStarting(s.status), checks + 1, shown)
      else if s.status == "online" then
        PollRun(Started(checks + 1), checks + 1, shown)
      else
        Poll(script, base, checks + 1, shown + [s.status])
  }

  /** One step of the poll at a check that reads a status other than `online`. */
  lemma PollWaitingStep(script: seq<Observation>, base: nat, checks: nat, shown: seq<string>)
    requires checks < MaxChecks && CheckWaiting(script, base, checks)
    ensures Poll(script, base, checks, shown)
         == Poll(script, base, checks + 1, shown + [CheckObs(script, base, checks).snap.status])
  {
  }

  /** What `!start` does on a configured guild: outcome, fetches, start calls and statuses shown. */
  datatype StartRunResult = StartRunResult(outcome: StartOutcome, fetches: nat, starts: nat, shown: seq<string>)

  /**
   * `!start`: fetch; do nothing more when the server is `online` or
   * `starting`; otherwise issue one start (which raises when `startRaises`)
   * and poll.
   */
  function StartRun(script: seq<Observation>, k: nat, startRaises: bool): (r: StartRunResult)
    ensures r.starts <= 1 && 1 <= r.fetches <= MaxChecks + 2
    ensures r.starts == 1 <==>
      ObsAt(script, k).Fetched? && ObsAt(script, k).snap.status != "online" && ObsAt(script, k).snap.status != "starting"
    ensures r.starts == 0 ==> r.fetches == 1 && r.shown == []
    ensures r.outcome == AlreadyOnline <==> OnlineAt(script, k)
    ensures r.outcome == AlreadyStarting <==> ObsAt(script, k).Fetched? && ObsAt(script, k).snap.status == "starting"
    ensures ObsAt(script, k).Raised? ==> r.outcome == StartFailed
    ensures r.starts == 1 && startRaises ==> r.outcome == StartFailed && r.fetches == 1 && r.shown == []
    ensures r.starts == 1 && !startRaises ==>
      var p := Poll(script, k + 1, 0, []);
      r.outcome == p.outcome && r.fetches == 1 + p.polls && r.shown == p.shown
  {
    match ObsAt(script, k)
    case Raised => StartRunResult(StartFailed, 1, 0, [])
    case Fetched(s) =>
      if s.status == "online" then StartRunResult(AlreadyOnline, 1, 0, [])
      else if s.status == "starting" then StartRunResult(AlreadyStarting, 1, 0, [])
      else if startRaises then StartRunResult(StartFailed, 1, 1, [])
      else
        var poll := Poll(script, k + 1, 0, []);
        StartRunResult(poll.outcome, 1 + poll.polls, 1, poll.shown)
  }

  /**
   * The poll ends at the first check that does not read a status other than
   * `online`: at an `online` reading it reports `Started` with that check's
   * number, at a failed fetch it fails.
   */
  lemma {:induction false} PollEndsAtFirstNonWaiting(script: seq<Observation>, base: nat, checks: nat, shown: seq<string>, j: nat)
    requires checks <= j < MaxChecks
    requires forall i | checks <= i < j :: CheckWaiting(script, base, i)
    requires !CheckWaiting(script, base, j)
    ensures Poll(script, base, checks, shown).polls == j + 1
    ensures Poll(script, base, checks, shown).outcome == if CheckObs(script, base, j).Raised? then StartFailed else Started(j + 1)
    decreases j - checks
  {
    if checks < j {
      assert CheckWaiting(script, base, checks);
      PollEndsAtFirstNonWaiting(script, base, checks + 1, shown + [CheckObs(script, base, checks).snap.status], j);
    }
  }

  /**
   * `Started(n)` means exactly that check `n` was the first to read
   * `online`, every earlier check having read some other status.
   */
  lemma {:induction false} PollStartedMeansFirstOnline(script: seq<Observation>, base: nat, checks: nat, shown: seq<string>)
    requires checks <= MaxChecks
    ensures var r := Poll(script, base, checks, shown);
      r.outcome.Started? ==>
        OnlineAt(script, base + r.outcome.checks - 1)
        && forall i | checks <= i < r.outcome.checks - 1 :: CheckWaiting(script, base, i)
    decreases MaxChecks - checks
  {
    if checks < MaxChecks && CheckWaiting(script, base, checks) {
      PollStartedMeansFirstOnline(script, base, checks + 1, shown + [CheckObs(script, base, checks).snap.status]);
    }
  }

  /**
   * When no check reads `online` and none fails, the loop makes all its
   * checks and then exactly one more fetch, which alone decides the outcome.
   */
  lemma {:induction false} PollTimesOut(script: seq<Observation>, base: nat, checks: nat, shown: seq<string>)
    requires checks <= MaxChecks
    requires forall i | checks <= i < MaxChecks :: CheckWaiting(script, base, i)
    ensures Poll(script, base, checks, shown).polls == MaxChecks + 1
    ensures Poll(script, base, checks, shown).outcome ==
      match CheckObs(script, base, MaxChecks)
      case Raised => StartFailed
      case Fetched(s) => if s.status == "online" then OnlineAtFinalFetch else StillStarting(s.status)
    decreases MaxChecks - checks
  {
    if checks < MaxChecks {
      assert CheckWaiting(script, base, checks);
      PollTimesOut(script, base, checks + 1, shown + [CheckObs(script, base, checks).snap.status]);
    }
  }

  /** The statuses the poll shows at its checks before check number `c`. */
  function ShownBefore(script: seq<Observation>, base: nat, c: nat): (r: seq<string>)
    requires forall i | 0 <= i < c :: CheckWaiting(script, base, i)
    ensures |r| == c
    decreases c
  {
    if c == 0 then []
    else
      assert CheckWaiting(script, base, c - 1);
      ShownBefore(script, base, c - 1) + [CheckObs(script, base, c - 1).snap.status]
  }

  /**
   * The statuses the poll shows are exactly those read, in order, by its
   * checks before the one that ends it, each a status other than `online`.
   */
  lemma {:induction false} PollShowsWaitingStatuses(script: seq<Observation>, base: nat, checks: nat)
    requires checks <= MaxChecks
    requires forall i | 0 <= i < checks :: CheckWaiting(script, base, i)
    ensures var r := Poll(script, base, checks, ShownBefore(script, base, checks));
      (forall i | 0 <= i < |r.shown| :: CheckWaiting(script, base, i))
      && r.shown == ShownBefore(script, base, |r.shown|)
    decreases MaxChecks - checks
  {
    if checks < MaxChecks && CheckWaiting(script, base, checks) {
      PollShowsWaitingStatuses(script, base, checks + 1);
    }
  }

  /**
   * A `!start` that finds the server neither online nor starting, whose
   * start call succeeds and whose 60 checks neither read `online` nor raise,
   * makes exactly 1 + 60 + 1 fetches and one start call.
   */
  lemma StartWithoutOnlineUsesAllChecks(script: seq<Observation>, k: nat)
    requires ObsAt(script, k).Fetched?
    requires ObsAt(script, k).snap.status != "online" && ObsAt(script, k).snap.status != "starting"
    requires ChecksWait(script, k + 1, MaxChecks)
    ensures StartRun(script, k, false).fetches == MaxChecks + 2
    ensures StartRun(script, k, false).starts == 1
    ensures !StartRun(script, k, false).outcome.Started?
  {
    PollTimesOut(script, k + 1, 0, []);
  }

  /** Status number `i` that the poll shows is what check number `i` read. */
  lemma {:induction false} ShownBeforeAt(script: seq<Observation>, base: nat, c: nat, i: nat)
    requires forall j | 0 <= j < c :: CheckWaiting(script, base, j)
    requires i < c
    ensures CheckWaiting(script, base, i) && ShownBefore(script, base, c)[i] == CheckObs(script, base, i).snap.status
    decreases c
  {
    if i < c - 1 {
      ShownBeforeAt(script, base, c - 1, i);
    }
  }

  /**
   * `StillStarting(s)` means the final fetch, after all 60 checks, read
   * `s`, a status other than `online`.
   */
  lemma {:induction false} PollStillStartingReadsFinalFetch(script: seq<Observation>, base: nat, checks: nat, shown: seq<string>)
    requires checks <= MaxChecks
    ensures var r := Poll(script, base, checks, shown);
      r.outcome.StillStarting? ==>
        CheckObs(script, base, MaxChecks).Fetched?
        && CheckObs(script, base, MaxChecks).snap.status == r.outcome.status
        && r.outcome.status != "online"
    decreases MaxChecks - checks
  {
    if checks < MaxChecks && CheckWaiting(script, base, checks) {
      PollStillStartingReadsFinalFetch(script, base, checks + 1, shown + [CheckObs(script, base, checks).snap.status]);
    }
  }

  /** The statuses a poll from check 0 shows are, in order, what its first checks read. */
  lemma PollShowsReadings(script: seq<Observation>, base: nat)
    ensures var shown := Poll(script, base, 0, []).shown;
      forall i | 0 <= i < |shown| ::
        CheckWaiting(script, base, i) && shown[i] == CheckObs(script, base, i).snap.status
  {
    assert ShownBefore(script, base, 0) == [];
    PollShowsWaitingStatuses(script, base, 0);
    var shown := Poll(script, base, 0, []).shown;
    forall i | 0 <= i < |shown|
      ensures CheckWaiting(script, base, i) && shown[i] == CheckObs(script, base, i).snap.status
    {
      ShownBeforeAt(script, base, |shown|, i);
    }
  }

  /**
   * The texts `!start` writes into its loading message while it polls: at
   * check number `i`, the status read there (never `online`), upper-cased,
   * or `UNKNOWN` when empty.
   */
  lemma StartShowsProgress(script: seq<Observation>, k: nat, startRaises: bool)
    ensures var texts := ProgressTexts(StartRun(script, k, startRaises).shown);
      forall i | 0 <= i < |texts| ::
        CheckWaiting(script, k + 1, i)
        && texts[i] == var st := CheckObs(script, k + 1, i).snap.status;
                       if st == "" then "UNKNOWN" else Upper(st)
  {
    var r := StartRun(script, k, startRaises);
    if r.starts == 1 && !startRaises {
      PollShowsReadings(script, k + 1);
    }
  }

  /**
   * The text `!start` shows when it gives up: the status of the final
   * fetch, which is not `online`, upper-cased, or `STARTING` when empty.
   */
  lemma StartShowsFinalStatus(script: seq<Observation>, k: nat, startRaises: bool)
    ensures var r := StartRun(script, k, startRaises);
      r.outcome.StillStarting? ==>
        CheckObs(script, k + 1, MaxChecks).Fetched?
        && var st := CheckObs(script, k + 1, MaxChecks).snap.status;
           st != "online" && FinalLabel(r.outcome.status) == if st == "" then "STARTING" else Upper(st)
  {
    var r := StartRun(script, k, startRaises);
    if r.starts == 1 && !startRaises {
      PollStillStartingReadsFinalFetch(script, k + 1, 0, []);
    }
  }

  /**
   * The poll loop of `start_server`, run after the start call: at most
   * `MaxChecks` checks, leaving at the first `online`, then one final fetch.
   */
  method PollUntilOnline(server: Server) returns (outcome: StartOutcome, shown: seq<string>)
    modifies server
    ensures var r := Poll(server.script, old(server.fetches), 0, []);
      r.outcome == outcome && r.shown == shown && server.fetches == old(server.fetches) + r.polls
    ensures server.starts == old(server.starts) && server.stops == old(server.stops)
  {
    ghost var base := server.fetches;
    ghost var script := server.script;
    shown := [];
    var checkCount := 0;
    while checkCount < MaxChecks
      invariant 0 <= checkCount <= MaxChecks
      invariant server.fetches == base + checkCount
      invariant server.starts == old(server.starts) && server.stops == old(server.stops)
      invariant Poll(script, base, 0, []) == Poll(script, base, checkCount, shown)
    {
      var ok := server.Fetch();
      if !ok {
        return StartFailed, shown;
      }
      var current := server.current.status;
      if current == "online" {
        return Started(checkCount + 1), shown;
      }
      PollWaitingStep(script, base, checkCount, shown);
      shown := shown + [current];
      checkCount := checkCount + 1;
    }
    var ok := server.Fetch();
    if !ok {
      return StartFailed, shown;
    }
    var finalStatus := server.current.status;
    outcome := if finalStatus == "online" then OnlineAtFinalFetch else StillStarting(finalStatus);
  }

  /** `start_server` after the guild's server is found. */
  method RunStart(server: Server) returns (outcome: StartOutcome, shown: seq<string>)
    modifies server
    ensures var r := StartRun(server.script, old(server.fetches), RaisesAt(server.startRaises, old(server.starts)));
      r.outcome == outcome && r.shown == shown
      && server.fetches == old(server.fetches) + r.fetches && server.starts == old(server.starts) + r.starts
    ensures server.stops == old(server.stops)
  {
    shown := [];
    var ok := server.Fetch();
    if !ok {
      return StartFailed, shown;
    }
    var status := server.current.status;
    if status == "online" {
      return AlreadyOnline, shown;
    } else if status == "starting" {
      return AlreadyStarting, shown;
    }
    ok := server.Start();
    if !ok {
      return StartFailed, shown;
    }
    outcome, shown := PollUntilOnline(server);
  }

  datatype StopOutcome = AlreadyOffline | AlreadyStopping | Stopped | StopFailed

  /** What `!stop` does on a configured guild: outcome, fetches and stop calls. */
  datatype StopRunResult = StopRunResult(outcome: StopOutcome, fetches: nat, stops: nat)

  /**
   * `!stop`: fetch; do nothing more when the server is `offline` or
   * `stopping`; otherwise issue exactly one stop (which raises when
   * `stopRaises`).
   */
  function StopRun(script: seq<Observation>, k: nat, stopRaises: bool): (r: StopRunResult)
    ensures r.fetches == 1 && r.stops <= 1
    ensures r.stops == 1 <==>
      ObsAt(script, k).Fetched? && ObsAt(script, k).snap.status != "offline" && ObsAt(script, k).snap.status != "stopping"
    ensures r.outcome == Stopped <==> r.stops == 1 && !stopRaises
    ensures r.outcome == AlreadyOffline <==> ObsAt(script, k).Fetched? && ObsAt(script, k).snap.status == "offline"
    ensures r.outcome == AlreadyStopping <==> ObsAt(script, k).Fetched? && ObsAt(script, k).snap.status == "stopping"
    ensures r.outcome == StopFailed <==> ObsAt(script, k).Raised? || (r.stops == 1 && stopRaises)
  {
    match ObsAt(script, k)
    case Raised => StopRunResult(StopFailed, 1, 0)
    case Fetched(s) =>
      if s.status == "offline" then StopRunResult(AlreadyOffline, 1, 0)
      else if s.status == "stopping" then StopRunResult(AlreadyStopping, 1, 0)
      else StopRunResult(if stopRaises then StopFailed else Stopped, 1, 1)
  }

  /** `stop_server` after the guild's server is found. */
  method RunStop(server: Server) returns (outcome: StopOutcome)
    modifies server
    ensures var r := StopRun(server.script, old(server.fetches), RaisesAt(server.stopRaises, old(server.stops)));
      r.outcome == outcome && server.fetches == old(server.fetches) + r.fetches && server.stops == old(server.stops) + r.stops
    ensures server.starts == old(server.starts)
  {
    var ok := server.Fetch();
    if !ok {
      return StopFailed;
    }
    var status := server.current.status;
    if status == "offline" {
      return AlreadyOffline;
    } else if status == "stopping" {
      return AlreadyStopping;
    }
    ok := server.Stop();
    outcome := if ok then Stopped else StopFailed;
  }

  /** The `!status` reply: emoji, status text and player display. */
  datatype StatusReport = StatusReport(emoji: string, text: string, players: string)

  datatype StatusOutcome = Report(report: StatusReport) | StatusFailed

  /** `!status` on a configured guild, from what its one fetch observes. */
  function StatusRun(obs: Observation): (r: StatusOutcome)
    ensures r.Report? <==> obs.Fetched?
    ensures r.Report? ==>
      ParsePlayersDisplay(r.report.players) == Some((PlayersOnline(obs.snap.playersList), obs.snap.playersCount))
    ensures r.Report? ==> (r.report.emoji == UnknownEmoji <==> !KnownStatus(obs.snap.status))
    ensures r.Report? && !KnownStatus(obs.snap.status) && obs.snap.status != "" ==>
      r.report.text == Upper(obs.snap.status)
    ensures r.Report? && obs.snap.status == "" ==> r.report.text == "UNKNOWN"
  {
    match obs
    case Raised => StatusFailed
    case Fetched(s) =>
      var online := PlayersOnline(s.playersList);
      PlayersDisplayRoundTrip(online, s.playersCount);
      Report(StatusReport(StatusEmoji(s.status), StatusLabel(s.status), PlayersDisplay(online, s.playersCount)))
  }

  /** `server_status` after the guild's server is found. */
  method RunStatus(server: Server) returns (outcome: StatusOutcome)
    modifies server
    ensures outcome == StatusRun(ObsAt(server.script, old(server.fetches)))
    ensures server.fetches == old(server.fetches) + 1
    ensures server.starts == old(server.starts) && server.stops == old(server.stops)
  {
    var ok := server.Fetch();
    if !ok {
      return StatusFailed;
    }
    var s := server.current;
    var online := PlayersOnline(s.playersList);
    outcome := Report(StatusReport(StatusEmoji(s.status), StatusLabel(s.status), PlayersDisplay(online, s.playersCount)));
  }
}
