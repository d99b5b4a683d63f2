/** Whole runs of the job system. */
module Runs {
  // Any sequence of commands, any behaviour of port, user and device manager.

  import opened Text
  import opened Chunking
  import Device
  import Numbers
  import S = Streamer
  import opened Jobs
  import opened Worker
  import opened Lifecycle

  // ---- commands -----------------------------------------------------------------------

  /** The worker's commands, and what the API does to the store directly. */
  datatype Command =
    | CreateJob(id: int, hpgl: string) | DeleteJob(id: int) | AttachHpgl(id: int, hpgl: string)
    | PrepareJob(id: int, paper: Device.Clip, prepareEnv: PrepareEnv)
    | StartJob(id: int, settings: Settings, startEnv: StartEnv)

  const EMPTY := World(map[], [], false)

  function Do(w: World, c: Command): World {
    match c
    case CreateJob(id, hpgl) =>
      if id in w.jobs || History(w.log, id) != [] then w
      else w.(jobs := w.jobs[id := Job(Queued, hpgl, 0, 0)])
    case DeleteJob(id) => if id in w.jobs && !Active(w.jobs[id].status) then w.(jobs := w.jobs - {id}) else w
    case AttachHpgl(id, hpgl) =>
      if id in w.jobs && w.jobs[id].hpgl == "" then w.(jobs := w.jobs[id := w.jobs[id].(hpgl := hpgl)]) else w
    case PrepareJob(id, paper, env) => Prepare(w, id, paper, env)
    case StartJob(id, settings, env) => DoStart(w, id, settings, env)
  }

  function DoAll(w: World, cs: seq<Command>): World
    decreases |cs|
  {
    if cs == [] then w else Do(DoAll(w, cs[..|cs| - 1]), cs[|cs| - 1])
  }

  // ---- preparing ----------------------------------------------------------------------

  lemma PrepareShape(w: World, id: int, paper: Device.Clip, env: PrepareEnv)
    requires CanMove(w, id, Preparing)
    ensures var job := w.jobs[id];
      var w' := Prepare(w, id, paper, env);
      var w1 := MoveTo(w, id, Preparing);
      if Unfit(job, paper, env) then w' == MoveTo(w1, id, Failed)
      else w' == MoveTo(w1.(jobs := w1.jobs[id := Job(Preparing, job.hpgl, |job.hpgl|, 0)]), id, Ready)
  {
  }

  lemma CountersStep(w: World, id: int, job: Job)
    requires Sound(w) && id in w.jobs && job.status == w.jobs[id].status
    ensures Step(w, w.(jobs := w.jobs[id := job]), id)
  {
  }

  lemma PrepareStep(w: World, id: int, paper: Device.Clip, env: PrepareEnv)
    requires Sound(w) && CanMove(w, id, Preparing)
    ensures Step(w, Prepare(w, id, paper, env), id)
  {
    var w1 := MoveTo(w, id, Preparing);
    MoveStep(w, id, Preparing);
    PrepareShape(w, id, paper, env);
    var job := w.jobs[id];
    if Unfit(job, paper, env) {
      MoveStep(w1, id, Failed);
      StepTwice(w, w1, MoveTo(w1, id, Failed), id);
    } else {
      var w2 := w1.(jobs := w1.jobs[id := Job(Preparing, job.hpgl, |job.hpgl|, 0)]);
      CountersStep(w1, id, Job(Preparing, job.hpgl, |job.hpgl|, 0));
      StepTwice(w, w1, w2, id);
      MoveStep(w2, id, Ready);
      StepTwice(w, w2, MoveTo(w2, id, Ready), id);
    }
  }

  /** The payload has something on it besides white space. */
  predicate HasInk(hpgl: string) { exists i :: 0 <= i < |hpgl| && !Numbers.IsBlank(hpgl[i]) }

  lemma {:induction false} StripLeftInk(s: string)
    ensures Numbers.StripLeft(s) != "" <==> HasInk(s)
    ensures var r := Numbers.StripLeft(s); r != "" ==> !Numbers.IsBlank(r[0])
  {
    if s != "" && Numbers.IsBlank(s[0]) {
      StripLeftInk(s[1..]);
      if HasInk(s[1..]) {
        var i :| 0 <= i < |s[1..]| && !Numbers.IsBlank(s[1..][i]);
        assert !Numbers.IsBlank(s[i + 1]);
      }
      if HasInk(s) {
        var i :| 0 <= i < |s| && !Numbers.IsBlank(s[i]);
        assert s[1..][i - 1] == s[i];
      }
    }
  }

  lemma {:induction false} StripRightInk(s: string)
    requires s != "" && !Numbers.IsBlank(s[0])
    ensures Numbers.StripRight(s) != ""
    decreases |s|
  {
    if Numbers.IsBlank(s[|s| - 1]) {
      StripRightInk(s[..|s| - 1]);
    }
  }

  lemma StripInk(s: string)
    ensures Numbers.Strip(s) != "" <==> HasInk(s)
  {
    StripLeftInk(s);
    if Numbers.StripLeft(s) != "" {
      StripRightInk(Numbers.StripLeft(s));
    }
  }

  /** The paper lies on the plottable area, edge by edge. */
  predicate OnArea(paper: Device.Clip, area: Device.Clip) {
    area.xmin <= paper.xmin && paper.xmax <= area.xmax && area.ymin <= paper.ymin && paper.ymax <= area.ymax
  }

  /** When a prepare makes a job ready: a plotter is connected and has answered, or its answer was
      lost; the paper fits what it answered; and there is something to plot. */
  lemma ReadyExactly(w: World, id: int, paper: Device.Clip, env: PrepareEnv)
    requires CanMove(w, id, Preparing)
    ensures var job := w.jobs[id];
      var after := Prepare(w, id, paper, env).jobs;
      && id in after
      && (after[id].status == Ready <==>
            env.connected && !env.answer.Unavailable?
            && (env.answer.Limits? ==> OnArea(paper, env.answer.clip)) && HasInk(job.hpgl))
      && (after[id].status == Ready ==> after[id] == Job(Ready, job.hpgl, |job.hpgl|, 0))
      && (after[id].status != Ready ==> after[id] == job.(status := Failed))
  {
    StripInk(w.jobs[id].hpgl);
  }

  /** A job the table does not let go to preparing is not touched. */
  lemma PrepareRefused(w: World, id: int, paper: Device.Clip, env: PrepareEnv)
    requires !CanMove(w, id, Preparing)
    ensures Prepare(w, id, paper, env) == w
  {
  }

  /** What the check is for: after a prepare that compared the paper with the plotter's limits, the
      plotter reaches every point of the paper exactly, without clamping it. */
  lemma ReadyReachesPaper(w: World, id: int, paper: Device.Clip, env: PrepareEnv, dev: Device.Device, x: real, y: real)
    requires CanMove(w, id, Preparing) && Prepare(w, id, paper, env).jobs[id].status == Ready
    requires env.answer.Limits? && dev.clip == env.answer.clip
    requires paper.xmin as real <= x <= paper.xmax as real && paper.ymin as real <= y <= paper.ymax as real
    ensures Device.MoveTo(dev, x, y).x == x && Device.MoveTo(dev, x, y).y == y
  {
    ReadyExactly(w, id, paper, env);
  }

  // ---- the invariant of all runs ------------------------------------------------------

  /** What holds of a job between commands; a ready job has been counted and nothing of it sent. */
  predicate AtRest(job: Job) {
    Rests(job.status) && (job.status.Ready? ==> job.sent == 0 && job.total == |job.hpgl| && job.hpgl != "")
  }

  ghost predicate AllAtRest(w: World) { forall id :: id in w.jobs ==> AtRest(w.jobs[id]) }

  ghost predicate Inv(w: World) { Sound(w) && !w.streaming && AllAtRest(w) }

  ghost predicate NoneSending(w: World) { forall id :: id in w.jobs ==> !w.jobs[id].status.Sending? }

  /** Whenever a resume begins, a driver is there. */
  predicate DriverAtResume(env: StartEnv) { GoesOn(env.wake) ==> env.second.driver }

  predicate DriverStays(c: Command) { c.StartJob? ==> DriverAtResume(c.startEnv) }

  lemma StartRests(job: Job, settings: Settings, env: StartEnv)
    ensures Rests(Started(job, settings, env).status) && !Started(job, settings, env).status.Ready?
    ensures DriverAtResume(env) ==> !Started(job, settings, env).status.Sending?
  {
  }

  lemma StepRests(w: World, w': World, id: int)
    requires Inv(w) && Step(w, w', id) && (id in w.jobs ==> AtRest(w'.jobs[id]))
    ensures Inv(w')
    ensures NoneSending(w) && (id in w.jobs ==> !w'.jobs[id].status.Sending?) ==> NoneSending(w')
  {
  }

  lemma StartKeeps(w: World, id: int, settings: Settings, env: StartEnv)
    requires Inv(w) && id in w.jobs
    ensures Inv(DoStart(w, id, settings, env)) && w.log <= DoStart(w, id, settings, env).log
    ensures NoneSending(w) && DriverAtResume(env) ==> NoneSending(DoStart(w, id, settings, env))
  {
    var w' := DoStart(w, id, settings, env);
    assert AtRest(w.jobs[id]);
    if Unsendable(w.jobs[id].status) {
      StartRefused(w, id, settings, env);
    } else {
      StartSends(w, id, settings, env);
      StartRests(w.jobs[id], settings, env);
    }
    StepRests(w, w', id);
  }

  lemma PrepareKeeps(w: World, id: int, paper: Device.Clip, env: PrepareEnv)
    requires Inv(w) && CanMove(w, id, Preparing)
    ensures Inv(Prepare(w, id, paper, env)) && w.log <= Prepare(w, id, paper, env).log
    ensures NoneSending(w) ==> NoneSending(Prepare(w, id, paper, env))
  {
    PrepareStep(w, id, paper, env);
    PrepareShape(w, id, paper, env);
    StepRests(w, Prepare(w, id, paper, env), id);
  }

  lemma StoreKeeps(w: World, c: Command)
    requires Inv(w) && (c.CreateJob? || c.DeleteJob? || c.AttachHpgl?)
    ensures Inv(Do(w, c)) && w.log <= Do(w, c).log
    ensures NoneSending(w) ==> NoneSending(Do(w, c))
  {
  }

  lemma CommandKeeps(w: World, c: Command)
    requires Inv(w)
    ensures Inv(Do(w, c)) && w.log <= Do(w, c).log
    ensures NoneSending(w) && DriverStays(c) ==> NoneSending(Do(w, c))
  {
    match c {
      case PrepareJob(id, paper, env) =>
        if CanMove(w, id, Preparing) {
          PrepareKeeps(w, id, paper, env);
        }
      case StartJob(id, settings, env) =>
        if id in w.jobs {
          StartKeeps(w, id, settings, env);
        }
      case _ => StoreKeeps(w, c);
    }
  }

  /** Between commands, in every run: no job is preparing, plotting or completing, the streaming
      flag is down, every job's history is a path of the transition table, and every completion
      is proven.  If a driver is there whenever a resume begins, no job is sending either. */
  lemma {:induction false} RunKeeps(w: World, cs: seq<Command>)
    requires Inv(w)
    ensures Inv(DoAll(w, cs)) && w.log <= DoAll(w, cs).log
    ensures NoneSending(w) && (forall i :: 0 <= i < |cs| ==> DriverStays(cs[i])) ==> NoneSending(DoAll(w, cs))
    decreases |cs|
  {
    if cs != [] {
      var n := |cs| - 1;
      RunKeeps(w, cs[..n]);
      CommandKeeps(DoAll(w, cs[..n]), cs[n]);
    }
  }

  lemma StartsEmpty()
    ensures Inv(EMPTY) && NoneSending(EMPTY)
  {
  }

  /** In every run: a prepare command leaves a queued job ready or failed, as it should. */
  lemma PreparedInRun(cs: seq<Command>, id: int, paper: Device.Clip, env: PrepareEnv)
    requires id in DoAll(EMPTY, cs).jobs
    ensures var before := DoAll(EMPTY, cs).jobs[id];
      var after := DoAll(EMPTY, cs + [PrepareJob(id, paper, env)]).jobs;
      && id in after
      && (if !before.status.Queued? then after[id] == before
          else if env.connected && !env.answer.Unavailable?
                  && (env.answer.Limits? ==> OnArea(paper, env.answer.clip)) && HasInk(before.hpgl)
          then after[id] == Job(Ready, before.hpgl, |before.hpgl|, 0)
          else after[id] == before.(status := Failed))
  {
    hide Prepare, OnArea, HasInk;
    var all := cs + [PrepareJob(id, paper, env)];
    assert all[..|all| - 1] == cs;
    var w := DoAll(EMPTY, cs);
    if CanMove(w, id, Preparing) {
      ReadyExactly(w, id, paper, env);
    } else {
      PrepareRefused(w, id, paper, env);
    }
  }

  // ---- completed means done -----------------------------------------------------------

  lemma {:induction false} HistoryWitness(log: seq<Event>, id: int) returns (i: nat)
    requires History(log, id) != []
    ensures i < |log| && log[i] == Moved(id, Last(History(log, id)))
    decreases |log|
  {
    var n := |log| - 1;
    if log[n].Moved? && log[n].id == id {
      i := n;
    } else {
      i := HistoryWitness(log[..n], id);
    }
  }

  /** Over every run: a completed job went through preparing, ready, sending, plotting and
      completing in that order; right before it was completed its stream call had returned
      normally, the sentinel had answered, and the error query was zero or unreadable. */
  lemma CompletedMeansDone(cs: seq<Command>, id: int) returns (i: nat)
    requires id in DoAll(EMPTY, cs).jobs && DoAll(EMPTY, cs).jobs[id].status == Completed
    ensures Visits(History(DoAll(EMPTY, cs).log, id), STAGES)
    ensures i < |DoAll(EMPTY, cs).log| && DoAll(EMPTY, cs).log[i] == Moved(id, Completed)
    ensures Proven(DoAll(EMPTY, cs).log, i, id)
  {
    var w := DoAll(EMPTY, cs);
    StartsEmpty();
    RunKeeps(EMPTY, cs);
    CompletedVisitsAll(w, id);
    i := HistoryWitness(w.log, id);
  }

  lemma {:induction false} DoAllAppend(w: World, a: seq<Command>, b: seq<Command>)
    ensures DoAll(w, a + b) == DoAll(DoAll(w, a), b)
    decreases |b|
  {
    if b == [] {
      assert a + b == a;
    } else {
      assert (a + b)[..|a + b| - 1] == a + b[..|b| - 1];
      DoAllAppend(w, a, b[..|b| - 1]);
    }
  }

  /** Over every run: a job in a terminal state stays in it until it is deleted. */
  lemma TerminalForever(cs: seq<Command>, more: seq<Command>, id: int)
    requires id in DoAll(EMPTY, cs).jobs && Terminal(DoAll(EMPTY, cs).jobs[id].status)
    requires id in DoAll(EMPTY, cs + more).jobs
    ensures DoAll(EMPTY, cs + more).jobs[id].status == DoAll(EMPTY, cs).jobs[id].status
  {
    StartsEmpty();
    RunKeeps(EMPTY, cs);
    DoAllAppend(EMPTY, cs, more);
    RunKeeps(DoAll(EMPTY, cs), more);
    TerminalStays(DoAll(EMPTY, cs), DoAll(EMPTY, cs + more), id);
  }

  // ---- exactly when -------------------------------------------------------------------

  /** The first stream call is interrupted by a pause, and the wait ends without a cancel flag. */
  predicate PausedThenWoken(job: Job, settings: Settings, env: StartEnv) {
    env.driver && FirstRun(job, settings, env).0 == S.Interrupted(S.PausedByUser) && GoesOn(env.wake)
  }

  function SecondOf(job: Job, settings: Settings, env: StartEnv): (S.Outcome, S.State) {
    SecondRun(AfterFirst(job, FirstRun(job, settings, env)), settings, env.second)
  }

  predicate EndsWell(o: S.Outcome, ending: Ending) { o.Sent? && ending.finish.Answered? && GateOpen(ending.gate) }

  /** The exact conditions for each resting state of a job that could be started. */
  lemma StartedExactly(job: Job, settings: Settings, env: StartEnv)
    ensures var first := FirstRun(job, settings, env).0;
      var woken := PausedThenWoken(job, settings, env);
      var second := SecondOf(job, settings, env).0;
      var after := Started(job, settings, env).status;
      // completed: one of the two streams went through and was confirmed
      && (after == Completed <==>
            (env.driver && EndsWell(first, env.ending)) ||
            (woken && env.second.driver && EndsWell(second, env.second.ending)))
      // left sending: exactly when a paused job was resumed without a driver
      && (after == Sending <==> woken && !env.second.driver)
      // paused: cancelled or shut down while waiting, or paused a second time with nobody waiting
      && (after == Paused <==>
            env.driver && first == S.Interrupted(S.PausedByUser) &&
            (!GoesOn(env.wake) || (env.second.driver && second == S.Interrupted(S.PausedByUser))))
      // disconnected: only ever from the first stream
      && (after == Disconnect <==>
            env.driver && (first.Disconnected? || (first.Sent? && env.ending.finish.PortGone?)))
      // cancelled: by the user, in one of the two streams
      && (after == Cancelled <==>
            (env.driver && first == S.Interrupted(S.CancelledByUser)) ||
            (woken && env.second.driver && second == S.Interrupted(S.CancelledByUser)))
      // failed: no driver, a fatal stream, a broken wait or a reported error
      && (after == Failed <==>
            !env.driver || Fatal(first) || (first.Sent? && Unconfirmed(env.ending)) ||
            (woken && env.second.driver &&
             (Fatal(second) || second.Disconnected? ||
              (second.Sent? && (Unconfirmed(env.second.ending) || env.second.ending.finish.PortGone?)))))
      && (after == Completed || after == Sending || after == Paused || after == Disconnect || after == Cancelled ||
          after == Failed)
  {
  }

  /** Interrupted, but not by a pause or a cancel. */
  predicate Fatal(o: S.Outcome) {
    o.Interrupted? && o != S.Interrupted(S.PausedByUser) && o != S.Interrupted(S.CancelledByUser)
  }

  /** The wait broke, or the error query reported one. */
  predicate Unconfirmed(ending: Ending) {
    ending.finish.Broke? || (ending.finish.Answered? && ending.gate.Some? && ending.gate.value != 0)
  }

  /** The signals at the last loop head of a stream call; none, if it met no head. */
  function LastSignals(env: S.Env, run: (S.Outcome, S.State)): S.Signals {
    if run.1.port.heads == 0 then S.Signals(false, false, false) else env.signals(run.1.port.heads - 1)
  }

  lemma FirstObeys(job: Job, settings: Settings, env: StartEnv)
    ensures var run := FirstRun(job, settings, env);
      S.Obeyed(run.0, LastSignals(env.stream, run))
  {
    S.SignalsDecide(FirstConfig(settings), env.stream, job.hpgl, S.Start(S.FRESH_PORT));
  }

  lemma SecondObeys(job: Job, settings: Settings, second: Second)
    ensures var run := SecondRun(job, settings, second);
      S.Obeyed(run.0, LastSignals(second.stream, run))
  {
    S.SignalsDecide(ResumeConfig(settings), second.stream, Rest(job), S.Start(S.FRESH_PORT));
  }

  /** What the user's signals make of a job that could be started.  A cancel met by the first stream
      leaves it cancelled, a pause leaves it paused when the wait ends with a cancel or a
      shutdown and lets the second stream decide otherwise, a shutdown makes it fail; and a job is
      never cancelled without the user's cancel in one of its two streams. */
  lemma SignalsReachJob(job: Job, settings: Settings, env: StartEnv)
    requires env.driver
    ensures var seen := LastSignals(env.stream, FirstRun(job, settings, env));
      var seenAgain := LastSignals(env.second.stream, SecondOf(job, settings, env));
      var after := Started(job, settings, env).status;
      && (seen.cancel ==> after == Cancelled)
      && (seen.pause && !seen.cancel && (env.wake.CancelAsked? || env.wake.Shutdown?) ==> after == Paused)
      && (seen.pause && !seen.cancel && (env.wake.ResumeAsked? || env.wake.StopSeen?) && env.second.driver ==>
            (seenAgain.cancel <==> after == Cancelled) && (seenAgain.pause && !seenAgain.cancel <==> after == Paused))
      && (seen.shutdown && !seen.cancel && !seen.pause ==> after == Failed)
      && (after == Cancelled ==> seen.cancel || (seen.pause && seenAgain.cancel))
      && (after == Paused ==> seen.pause && !seen.cancel)
  {
    hide Started;
    FirstObeys(job, settings, env);
    SecondObeys(AfterFirst(job, FirstRun(job, settings, env)), settings, env.second);
    StartedExactly(job, settings, env);
  }

  /** The same for the command: a ready or paused job, in every run. */
  lemma StartObeys(cs: seq<Command>, id: int, settings: Settings, env: StartEnv)
    requires id in DoAll(EMPTY, cs).jobs && Startable(DoAll(EMPTY, cs).jobs[id].status) && env.driver
    ensures var job := DoAll(EMPTY, cs).jobs[id];
      var after := Do(DoAll(EMPTY, cs), StartJob(id, settings, env)).jobs;
      var seen := LastSignals(env.stream, FirstRun(job, settings, env));
      && id in after
      && (seen.cancel ==> after[id].status == Cancelled)
      && (seen.pause && !seen.cancel && (env.wake.CancelAsked? || env.wake.Shutdown?) ==> after[id].status == Paused)
      && (after[id].status == Cancelled ==> seen.cancel || seen.pause)
      && (after[id].status == Paused ==> seen.pause && !seen.cancel)
  {
    hide Started, DoStart, Sound;
    StartsEmpty();
    RunKeeps(EMPTY, cs);
    StartSends(DoAll(EMPTY, cs), id, settings, env);
    SignalsReachJob(DoAll(EMPTY, cs).jobs[id], settings, env);
  }

  /** The budgets of the two streams: the first gives up behind the configured number of retries, the
      second behind three whatever is configured, and both behind 241 readings without room. */
  lemma StreamBudgets(job: Job, settings: Settings, env: StartEnv) returns (first: nat, second: nat)
    requires settings.chunk > 0
    ensures var run := FirstRun(job, settings, env);
      && (run.0 == S.Interrupted(S.NoSpaceReply) ==> SilentFor(env.stream, run.1.port, settings.retries + 1))
      && (run.0 == S.Interrupted(S.BufferStayedFull) ==> StayedFull(env.stream, run.1.port, first, 241))
    ensures var run := SecondOf(job, settings, env);
      && (run.0 == S.Interrupted(S.NoSpaceReply) ==> SilentFor(env.second.stream, run.1.port, 4))
      && (run.0 == S.Interrupted(S.BufferStayedFull) ==> StayedFull(env.second.stream, run.1.port, second, 241))
  {
    var after := AfterFirst(job, FirstRun(job, settings, env));
    first := S.OutcomeExplained(FirstConfig(settings), env.stream, job.hpgl, S.Start(S.FRESH_PORT), 0);
    second := S.OutcomeExplained(ResumeConfig(settings), env.second.stream, Rest(after), S.Start(S.FRESH_PORT), 0);
  }

  /** The last `n` space queries brought no usable reply. */
  ghost predicate SilentFor(env: S.Env, port: S.Port, n: nat) {
    n <= port.asked && forall i: nat :: port.asked - n <= i < port.asked ==> !S.Usable(env.space(i))
  }

  /** From reply `since` on exactly `n` could be used. */
  ghost predicate StayedFull(env: S.Env, port: S.Port, since: nat, n: nat) {
    since <= port.asked && S.UsableReplies(env, since, port.asked) == n
  }

  // ---- bytes --------------------------------------------------------------------------

  /** Everything a start puts on the line, over both of its stream calls. */
  function Wire(job: Job, settings: Settings, env: StartEnv): string {
    if !env.driver then ""
    else
      var run := FirstRun(job, settings, env);
      Concat(run.1.port.wire) +
      (if Resumed(run.0, env) then Concat(SecondOf(job, settings, env).1.port.wire) else "")
  }

  /** One stream call that ends cleanly has written exactly what it counted. */
  lemma CallCarries(cfg: S.Config, env: S.Env, payload: string)
    ensures var run := S.Run(cfg, env, payload, S.Start(S.FRESH_PORT));
      && run.1.sent <= |payload|
      && (S.Clean(run.0) ==> Concat(run.1.port.wire) == payload[..run.1.sent])
      && (run.1.sent == 0 || Boundary(payload, run.1.sent))
      && SentBy(0, run, 0) == run.1.sent
      && (run.0.Sent? ==> run.1.sent == |payload|)
  {
    S.RunExact(cfg, env, payload, S.FRESH_PORT);
    var run := S.Run(cfg, env, payload, S.Start(S.FRESH_PORT));
    if S.Clean(run.0) {
      assert run.1.port.wire[|S.FRESH_PORT.wire|..] == run.1.port.wire;
    }
  }

  lemma RestIs(job: Job)
    requires job.sent <= |job.hpgl|
    ensures Rest(job) == job.hpgl[job.sent..] && |Rest(job)| == |job.hpgl| - job.sent
  {
  }

  /** A cut of the rest of a payload is a cut of the payload. */
  lemma RestCut(payload: string, at: nat, n: nat)
    requires at + n <= |payload|
    ensures payload[at..][..n] == payload[at..at + n]
    ensures Boundary(payload[at..], n) ==> Boundary(payload, at + n)
  {
  }

  /** How far a second call gets, in bytes of the whole payload. */
  function SecondTotal(job: Job, settings: Settings, second: Second): nat {
    SentBy(job.sent, SecondRun(job, settings, second), job.sent)
  }

  lemma SecondCounts(job: Job, settings: Settings, second: Second)
    requires job.sent <= |job.hpgl|
    ensures var run := SecondRun(job, settings, second);
      SecondTotal(job, settings, second) == job.sent + run.1.sent && run.1.sent <= |job.hpgl| - job.sent
  {
    RestIs(job);
    CallCarries(ResumeConfig(settings), second.stream, Rest(job));
  }

  lemma SecondEnds(job: Job, settings: Settings, second: Second)
    requires job.sent <= |job.hpgl| && (job.sent == 0 || Boundary(job.hpgl, job.sent))
    ensures var total := SecondTotal(job, settings, second);
      && job.sent <= total <= |job.hpgl| && (total == 0 || Boundary(job.hpgl, total))
      && (SecondRun(job, settings, second).0.Sent? ==> total == |job.hpgl|)
  {
    RestIs(job);
    SecondCounts(job, settings, second);
    CallCarries(ResumeConfig(settings), second.stream, Rest(job));
    RestCut(job.hpgl, job.sent, SecondRun(job, settings, second).1.sent);
  }

  lemma SecondWrites(job: Job, settings: Settings, second: Second)
    requires job.sent <= |job.hpgl| && S.Clean(SecondRun(job, settings, second).0)
    ensures job.sent <= SecondTotal(job, settings, second) <= |job.hpgl|
    ensures Concat(SecondRun(job, settings, second).1.port.wire) ==
      job.hpgl[job.sent..SecondTotal(job, settings, second)]
  {
    RestIs(job);
    SecondCounts(job, settings, second);
    CallCarries(ResumeConfig(settings), second.stream, Rest(job));
    RestCut(job.hpgl, job.sent, SecondRun(job, settings, second).1.sent);
  }

  /** The second call carries on exactly where the first one stopped. */
  lemma SecondCarries(job: Job, settings: Settings, second: Second)
    requires job.sent <= |job.hpgl| && (job.sent == 0 || Boundary(job.hpgl, job.sent))
    ensures var run := SecondRun(job, settings, second);
      var total := SecondTotal(job, settings, second);
      && job.sent <= total <= |job.hpgl|
      && (total == 0 || Boundary(job.hpgl, total))
      && (S.Clean(run.0) ==> Concat(run.1.port.wire) == job.hpgl[job.sent..total])
      && (run.0.Sent? ==> total == |job.hpgl|)
  {
    SecondEnds(job, settings, second);
    if S.Clean(SecondRun(job, settings, second).0) {
      SecondWrites(job, settings, second);
    }
  }

  /** The bytes of a start that is not resumed, or not yet. */
  lemma FirstBytes(job: Job, settings: Settings, env: StartEnv)
    requires job.sent == 0
    ensures var run := FirstRun(job, settings, env);
      var job1 := AfterFirst(job, run);
      && job1.sent == run.1.sent <= |job.hpgl| && (job1.sent == 0 || Boundary(job.hpgl, job1.sent))
      && (S.Clean(run.0) ==> Concat(run.1.port.wire) == job.hpgl[..job1.sent])
      && (run.0.Sent? ==> job1.sent == |job.hpgl|)
  {
    CallCarries(FirstConfig(settings), env.stream, job.hpgl);
  }

  lemma SingleBytes(job: Job, settings: Settings, env: StartEnv)
    requires job.sent == 0 && env.driver && !Resumed(FirstRun(job, settings, env).0, env)
    ensures Conserved(job, settings, env)
  {
    FirstBytes(job, settings, env);
    var wire := Concat(FirstRun(job, settings, env).1.port.wire);
    assert wire + "" == wire && job.hpgl[..|job.hpgl|] == job.hpgl;
  }

  lemma JoinedBytes(payload: string, at: nat, total: nat)
    requires at <= total <= |payload|
    ensures payload[..at] + payload[at..total] == payload[..total] && payload[..|payload|] == payload
  {
  }

  lemma ResumedBytes(job: Job, settings: Settings, env: StartEnv)
    requires job.sent == 0 && env.driver && Resumed(FirstRun(job, settings, env).0, env)
    ensures Conserved(job, settings, env)
  {
    FirstBytes(job, settings, env);
    var job1 := AfterFirst(job, FirstRun(job, settings, env));
    SecondCarries(job1, settings, env.second);
    JoinedBytes(job.hpgl, job1.sent, SecondTotal(job1, settings, env.second));
  }

  /** While the job rests paused or sending, the line has carried exactly the counted prefix of
      the payload, up to a boundary; once it is completed, exactly the payload. */
  ghost predicate Conserved(job: Job, settings: Settings, env: StartEnv) {
    var after := Started(job, settings, env);
    && (after.status == Paused || after.status == Sending ==>
          after.sent <= |job.hpgl| && Wire(job, settings, env) == job.hpgl[..after.sent]
          && (after.sent == 0 || Boundary(job.hpgl, after.sent)))
    && (after.status == Completed ==> Wire(job, settings, env) == job.hpgl)
  }

  /** Conservation over pause and resume, from a ready job: no gap and no repetition. */
  lemma BytesAreConserved(job: Job, settings: Settings, env: StartEnv)
    requires job.sent == 0
    ensures Conserved(job, settings, env)
  {
    if env.driver {
      if Resumed(FirstRun(job, settings, env).0, env) {
        ResumedBytes(job, settings, env);
      } else {
        SingleBytes(job, settings, env);
      }
    }
  }

  /** A start of a job left paused begins again at the first byte: if that stream goes through,
      the line has carried the paused prefix twice. */
  lemma RestartRepeats(job: Job, settings: Settings, env: StartEnv)
    requires env.driver && job.sent <= |job.hpgl| && FirstRun(job, settings, env).0.Sent?
    ensures Wire(job, settings, env) == job.hpgl
    ensures job.hpgl[..job.sent] + Wire(job, settings, env) == job.hpgl <==> job.sent == 0
  {
    CallCarries(FirstConfig(settings), env.stream, job.hpgl);
    var run := FirstRun(job, settings, env);
    assert Concat(run.1.port.wire) + "" == Concat(run.1.port.wire);
    assert job.hpgl[..|job.hpgl|] == job.hpgl;
    assert |job.hpgl[..job.sent] + job.hpgl| == job.sent + |job.hpgl|;
    assert job.sent == 0 ==> job.hpgl[..job.sent] + job.hpgl == job.hpgl;
  }

  /** In every run a ready job's next start conserves bytes. */
  lemma ReadyConserves(cs: seq<Command>, id: int, settings: Settings, env: StartEnv)
    requires id in DoAll(EMPTY, cs).jobs && DoAll(EMPTY, cs).jobs[id].status == Ready
    ensures var job := DoAll(EMPTY, cs).jobs[id];
      var after := DoAll(EMPTY, cs + [StartJob(id, settings, env)]).jobs;
      && id in after
      && (after[id].status == Paused ==>
            after[id].sent <= |job.hpgl| && Wire(job, settings, env) == job.hpgl[..after[id].sent])
      && (after[id].status == Completed ==> Wire(job, settings, env) == job.hpgl)
  {
    hide Wire, Started, DoStart, Sound;
    var w := DoAll(EMPTY, cs);
    StartsEmpty();
    RunKeeps(EMPTY, cs);
    assert AtRest(w.jobs[id]);
    StartSends(w, id, settings, env);
    BytesAreConserved(w.jobs[id], settings, env);
    var all := cs + [StartJob(id, settings, env)];
    assert all[..|all| - 1] == cs;
  }
}
