/** Job lifecycles over every sequence of commands and every exception path. */
module Lifecycle {
  import opened Text
  import Chunking
  import Device
  import S = Streamer
  import opened Jobs
  import opened Worker

  // ---- evidence of completion ---------------------------------------------------------

  predicate GateOpen(code: Option<nat>) { code.None? || code.value == 0 }

  /** The five things that must come right before a completion. */
  ghost predicate Proven(log: seq<Event>, i: nat, id: int)
    requires i <= |log|
  {
    && i >= 5
    && log[i - 5].StreamEnded? && log[i - 5].id == id && log[i - 5].outcome.Sent?
    && log[i - 4] == Moved(id, Plotting)
    && log[i - 3] == Moved(id, Completing)
    && log[i - 2] == SentinelRead(id)
    && log[i - 1].GateRead? && log[i - 1].id == id && GateOpen(log[i - 1].code)
  }

  /** Every completion in the log is proven. */
  ghost predicate Evidence(log: seq<Event>) {
    forall i :: 0 <= i < |log| && log[i].Moved? && log[i].to.Completed? ==> Proven(log, i, log[i].id)
  }

  lemma EvidenceAppend(log: seq<Event>, e: Event)
    requires Evidence(log) && !(e.Moved? && e.to.Completed?)
    ensures Evidence(log + [e])
  {
    var all := log + [e];
    forall i | 0 <= i < |all| && all[i].Moved? && all[i].to.Completed? ensures Proven(all, i, all[i].id) {
      assert all[i] == log[i] && Proven(log, i, log[i].id);
    }
  }

  lemma EvidenceComplete(log: seq<Event>, id: int)
    requires Evidence(log) && Proven(log, |log|, id)
    ensures Evidence(log + [Moved(id, Completed)])
  {
    var all := log + [Moved(id, Completed)];
    forall i | 0 <= i < |all| && all[i].Moved? && all[i].to.Completed? ensures Proven(all, i, all[i].id) {
      if i < |log| {
        assert all[i] == log[i] && Proven(log, i, log[i].id);
      }
    }
  }

  // ---- what every step keeps ----------------------------------------------------------

  ghost predicate Sound(w: World) { Tracked(w) && Evidence(w.log) }

  /** Only this job changes, and the log grows. */
  ghost predicate OnlyJob(w: World, w': World, id: int) {
    && w'.jobs.Keys == w.jobs.Keys && w.log <= w'.log && w'.streaming == w.streaming
    && forall k :: k in w.jobs && k != id ==> w'.jobs[k] == w.jobs[k]
  }

  ghost predicate Step(w: World, w': World, id: int) { Sound(w') && OnlyJob(w, w', id) }

  lemma StepTwice(a: World, b: World, c: World, id: int)
    requires Step(a, b, id) && Step(b, c, id)
    ensures Step(a, c, id)
  {
  }

  lemma MoveEvidence(w: World, id: int, to: Status)
    requires Evidence(w.log) && (CanMove(w, id, to) ==> !to.Completed?)
    ensures Evidence(SafeMove(w, id, to).log)
  {
    if CanMove(w, id, to) {
      EvidenceAppend(w.log, Moved(id, to));
    }
  }

  lemma MoveOnly(w: World, id: int, to: Status)
    ensures OnlyJob(w, SafeMove(w, id, to), id)
  {
  }

  lemma MoveStep(w: World, id: int, to: Status)
    requires Sound(w) && (CanMove(w, id, to) ==> !to.Completed?)
    ensures Step(w, SafeMove(w, id, to), id)
  {
    MoveTracked(w, id, to);
    MoveEvidence(w, id, to);
    MoveOnly(w, id, to);
  }

  lemma RecordStep(w: World, id: int, e: Event)
    requires Sound(w) && !e.Moved?
    ensures Step(w, Jobs.Record(w, e), id)
  {
    RecordTracked(w, e);
    EvidenceAppend(w.log, e);
  }

  lemma StreamedStep(w: World, id: int, base: nat, run: (S.Outcome, S.State))
    requires Sound(w) && id in w.jobs
    ensures Step(w, Streamed(w, id, base, run), id)
    ensures Streamed(w, id, base, run).jobs[id] == w.jobs[id].(sent := SentBy(base, run, w.jobs[id].sent))
    ensures Streamed(w, id, base, run).log == w.log + [StreamEnded(id, run.0)]
  {
    hide Tracked, Evidence;
    ProgressTracked(w, id, base, run.1.reported);
    RecordStep(Progress(w, id, base, run.1.reported), id, StreamEnded(id, run.0));
  }

  // ---- concluding ---------------------------------------------------------------------

  /** Where a finished stream leads. */
  function FinalOf(ending: Ending, first: bool): Status {
    match ending.finish
    case PortGone => if first then Disconnect else Failed
    case Broke => Failed
    case Answered => if GateOpen(ending.gate) then Completed else Failed
  }

  /** The sentinel and gate entries of a job that is completing. */
  function Answers(w: World, id: int, gate: Option<nat>): World {
    Jobs.Record(Jobs.Record(w, SentinelRead(id)), GateRead(id, gate))
  }

  lemma AnswersStep(w: World, id: int, gate: Option<nat>)
    requires Sound(w)
    ensures Step(w, Answers(w, id, gate), id) && Answers(w, id, gate).jobs == w.jobs
  {
    RecordStep(w, id, SentinelRead(id));
    RecordStep(Jobs.Record(w, SentinelRead(id)), id, GateRead(id, gate));
  }

  predicate EndsSent(log: seq<Event>, id: int) {
    log != [] && log[|log| - 1].StreamEnded? && log[|log| - 1].id == id && log[|log| - 1].outcome.Sent?
  }

  lemma ProvenBy(log: seq<Event>, id: int, gate: Option<nat>)
    requires EndsSent(log, id) && GateOpen(gate)
    ensures var l := log + [Moved(id, Plotting)] + [Moved(id, Completing)] + [SentinelRead(id)] + [GateRead(id, gate)];
      Proven(l, |l|, id)
  {
  }

  /** The status changes and answers between the end of the stream and the verdict. */
  function Completed5(w: World, id: int, gate: Option<nat>): World
    requires id in w.jobs
  {
    Answers(MoveTo(MoveTo(w, id, Plotting), id, Completing), id, gate)
  }

  lemma Completed5Log(w: World, id: int, gate: Option<nat>)
    requires id in w.jobs
    ensures Completed5(w, id, gate).log ==
      w.log + [Moved(id, Plotting)] + [Moved(id, Completing)] + [SentinelRead(id)] + [GateRead(id, gate)]
    ensures Completed5(w, id, gate).jobs == w.jobs[id := w.jobs[id].(status := Completing)]
  {
  }

  lemma CompletingStep(w: World, id: int)
    requires Sound(w) && id in w.jobs && w.jobs[id].status == Sending
    ensures Step(w, MoveTo(MoveTo(w, id, Plotting), id, Completing), id)
  {
    var w1 := MoveTo(w, id, Plotting);
    MoveStep(w, id, Plotting);
    MoveStep(w1, id, Completing);
    StepTwice(w, w1, MoveTo(w1, id, Completing), id);
  }

  lemma Completed5Step(w: World, id: int, gate: Option<nat>)
    requires Sound(w) && id in w.jobs && w.jobs[id].status == Sending
    ensures Step(w, Completed5(w, id, gate), id)
  {
    var w2 := MoveTo(MoveTo(w, id, Plotting), id, Completing);
    CompletingStep(w, id);
    AnswersStep(w2, id, gate);
    StepTwice(w, w2, Answers(w2, id, gate), id);
  }

  /** A proven completion keeps everything sound. */
  lemma ProvenMove(w: World, id: int)
    requires Sound(w) && CanMove(w, id, Completed) && Proven(w.log, |w.log|, id)
    ensures Step(w, MoveTo(w, id, Completed), id)
  {
    MoveTracked(w, id, Completed);
    EvidenceComplete(w.log, id);
  }

  lemma CompleteStep(w: World, id: int, gate: Option<nat>)
    requires Sound(w) && id in w.jobs && w.jobs[id].status == Sending && EndsSent(w.log, id) && GateOpen(gate)
    ensures Step(w, MoveTo(Completed5(w, id, gate), id, Completed), id)
  {
    var w3 := Completed5(w, id, gate);
    Completed5Step(w, id, gate);
    Completed5Log(w, id, gate);
    ProvenBy(w.log, id, gate);
    ProvenMove(w3, id);
    StepTwice(w, w3, MoveTo(w3, id, Completed), id);
  }

  /** The world a conclusion leads to, for a sending job. */
  function Concluded(w: World, id: int, ending: Ending, first: bool): World
    requires id in w.jobs
  {
    var before :=
      if ending.finish.Answered? then Completed5(w, id, ending.gate)
      else MoveTo(MoveTo(w, id, Plotting), id, Completing);
    MoveTo(before, id, FinalOf(ending, first))
  }

  lemma ConcludeShape(w: World, id: int, ending: Ending, first: bool)
    requires id in w.jobs && w.jobs[id].status == Sending
    ensures Conclude(w, id, ending, first) == Concluded(w, id, ending, first)
    ensures Conclude(w, id, ending, first).jobs[id] == w.jobs[id].(status := FinalOf(ending, first))
  {
  }

  lemma FailStep(w: World, id: int, to: Status)
    requires Sound(w) && CanMove(w, id, to) && !to.Completed?
    ensures Step(w, MoveTo(w, id, to), id)
  {
    MoveStep(w, id, to);
  }

  lemma ConcludedStep(w: World, id: int, ending: Ending, first: bool)
    requires Sound(w) && id in w.jobs && w.jobs[id].status == Sending && EndsSent(w.log, id)
    ensures Step(w, Concluded(w, id, ending, first), id)
  {
    if ending.finish.Answered? {
      if GateOpen(ending.gate) {
        CompleteStep(w, id, ending.gate);
      } else {
        var w3 := Completed5(w, id, ending.gate);
        Completed5Step(w, id, ending.gate);
        Completed5Log(w, id, ending.gate);
        FailStep(w3, id, Failed);
        StepTwice(w, w3, MoveTo(w3, id, Failed), id);
      }
    } else {
      var w2 := MoveTo(MoveTo(w, id, Plotting), id, Completing);
      CompletingStep(w, id);
      FailStep(w2, id, FinalOf(ending, first));
      StepTwice(w, w2, MoveTo(w2, id, FinalOf(ending, first)), id);
    }
  }

  /** A sending job whose stream has just succeeded ends exactly as `FinalOf` says. */
  lemma ConcludeSending(w: World, id: int, ending: Ending, first: bool)
    requires Sound(w) && id in w.jobs && w.jobs[id].status == Sending && EndsSent(w.log, id)
    ensures var w' := Conclude(w, id, ending, first);
      Step(w, w', id) && w'.jobs[id] == w.jobs[id].(status := FinalOf(ending, first))
  {
    ConcludeShape(w, id, ending, first);
    ConcludedStep(w, id, ending, first);
  }

  // ---- streaming a job that is sending ------------------------------------------------

  /** Where a resumed stream leads. */
  function FinalOfSecond(o: S.Outcome, ending: Ending): Status {
    match o
    case Sent(_) => FinalOf(ending, false)
    case Interrupted(PausedByUser) => Paused
    case Interrupted(CancelledByUser) => Cancelled
    case _ => Failed
  }

  lemma MoveSending(w: World, id: int, to: Status)
    requires Sound(w) && id in w.jobs && w.jobs[id].status == Sending
    requires to == Paused || to == Cancelled || to == Failed || to == Disconnect
    ensures Step(w, SafeMove(w, id, to), id) && SafeMove(w, id, to).jobs[id] == w.jobs[id].(status := to)
  {
    MoveStep(w, id, to);
  }

  lemma SecondSettles(w: World, id: int, o: S.Outcome, ending: Ending)
    requires Sound(w) && id in w.jobs && w.jobs[id].status == Sending && (o.Sent? ==> EndsSent(w.log, id))
    ensures var w' := SettleSecond(w, id, o, ending);
      Step(w, w', id) && w'.jobs[id] == w.jobs[id].(status := FinalOfSecond(o, ending))
  {
    if o.Sent? {
      ConcludeSending(w, id, ending, false);
    } else {
      MoveSending(w, id, FinalOfSecond(o, ending));
    }
  }

  /** The byte count a stream call leaves behind. */
  function SentBy(base: nat, run: (S.Outcome, S.State), before: nat): nat {
    if run.1.reported.Some? then base + run.1.reported.value else before
  }

  lemma ResumeDriven(w: World, w1: World, id: int, settings: Settings, second: Second)
    requires Sound(w1) && id in w.jobs && CanMove(w, id, Sending) && w1 == MoveTo(w, id, Sending) && second.driver
    ensures var job := w.jobs[id];
      var run := SecondRun(job, settings, second);
      var w' := Resume(w, id, settings, second);
      && Step(w1, w', id)
      && w'.jobs[id] == job.(status := FinalOfSecond(run.0, second.ending), sent := SentBy(job.sent, run, job.sent))
  {
    var job := w.jobs[id];
    var run := SecondRun(job, settings, second);
    StreamedStep(w1, id, job.sent, run);
    var w2 := Streamed(w1, id, job.sent, run);
    SecondSettles(w2, id, run.0, second.ending);
    StepTwice(w1, w2, SettleSecond(w2, id, run.0, second.ending), id);
  }

  lemma ResumePaused(w: World, id: int, settings: Settings, second: Second)
    requires Sound(w) && id in w.jobs && w.jobs[id].status == Paused
    ensures var job := w.jobs[id];
      var run := SecondRun(job, settings, second);
      var w' := Resume(w, id, settings, second);
      && Step(w, w', id)
      && w'.jobs[id] == (if !second.driver then job.(status := Sending) else
           job.(status := FinalOfSecond(run.0, second.ending), sent := SentBy(job.sent, run, job.sent)))
  {
    var w1 := MoveTo(w, id, Sending);
    MoveStep(w, id, Sending);
    if second.driver {
      ResumeDriven(w, w1, id, settings, second);
      StepTwice(w, w1, Resume(w, id, settings, second), id);
    }
  }

  /** The job as the first stream call leaves it. */
  function AfterFirst(job: Job, run: (S.Outcome, S.State)): Job { job.(sent := SentBy(0, run, job.sent)) }

  /** Where the first stream leads; `job` is as that stream left it. */
  function FinalOfFirst(job: Job, o: S.Outcome, settings: Settings, env: StartEnv): Status {
    match o
    case Sent(_) => FinalOf(env.ending, true)
    case Interrupted(PausedByUser) =>
      if !GoesOn(env.wake) then Paused
      else if !env.second.driver then Sending
      else FinalOfSecond(SecondRun(job, settings, env.second).0, env.second.ending)
    case Interrupted(CancelledByUser) => Cancelled
    case Interrupted(_) => Failed
    case Disconnected => Disconnect
  }

  predicate Resumed(o: S.Outcome, env: StartEnv) {
    o == S.Interrupted(S.PausedByUser) && GoesOn(env.wake) && env.second.driver
  }

  function SentAfterFirst(job: Job, o: S.Outcome, settings: Settings, env: StartEnv): nat {
    if Resumed(o, env) then SentBy(job.sent, SecondRun(job, settings, env.second), job.sent) else job.sent
  }

  lemma PausedSettles(w: World, id: int, settings: Settings, env: StartEnv)
    requires Sound(w) && id in w.jobs && w.jobs[id].status == Sending
    ensures var o := S.Interrupted(S.PausedByUser);
      var job := w.jobs[id];
      var w' := SettleFirst(w, id, o, settings, env);
      && Step(w, w', id)
      && w'.jobs[id] ==
         job.(status := FinalOfFirst(job, o, settings, env), sent := SentAfterFirst(job, o, settings, env))
  {
    MoveSending(w, id, Paused);
    var paused := SafeMove(w, id, Paused);
    if GoesOn(env.wake) {
      ResumePaused(paused, id, settings, env.second);
      SameSecond(paused.jobs[id], w.jobs[id], settings, env.second);
      StepTwice(w, paused, Resume(paused, id, settings, env.second), id);
    }
  }

  /** A stream call depends on the payload and the byte count, not on the status. */
  lemma SameSecond(a: Job, b: Job, settings: Settings, second: Second)
    requires a.hpgl == b.hpgl && a.sent == b.sent
    ensures SecondRun(a, settings, second) == SecondRun(b, settings, second)
  {
  }

  lemma FirstSettles(w: World, id: int, o: S.Outcome, settings: Settings, env: StartEnv)
    requires Sound(w) && id in w.jobs && w.jobs[id].status == Sending && (o.Sent? ==> EndsSent(w.log, id))
    ensures var job := w.jobs[id];
      var w' := SettleFirst(w, id, o, settings, env);
      && Step(w, w', id)
      && w'.jobs[id] ==
         job.(status := FinalOfFirst(job, o, settings, env), sent := SentAfterFirst(job, o, settings, env))
  {
    if o.Sent? {
      ConcludeSending(w, id, env.ending, true);
    } else if o == S.Interrupted(S.PausedByUser) {
      PausedSettles(w, id, settings, env);
    } else {
      MoveSending(w, id, FinalOfFirst(w.jobs[id], o, settings, env));
    }
  }

  lemma LaunchSending(w: World, id: int, settings: Settings, env: StartEnv)
    requires Sound(w) && id in w.jobs && w.jobs[id].status == Sending
    ensures var run := FirstRun(w.jobs[id], settings, env);
      var job := AfterFirst(w.jobs[id], run);
      var w' := Launch(w, id, settings, env);
      && Step(w, w', id)
      && w'.jobs[id] ==
         job.(status := FinalOfFirst(job, run.0, settings, env), sent := SentAfterFirst(job, run.0, settings, env))
  {
    var run := FirstRun(w.jobs[id], settings, env);
    StreamedStep(w, id, 0, run);
    var w1 := Streamed(w, id, 0, run);
    FirstSettles(w1, id, run.0, settings, env);
    StepTwice(w, w1, Launch(w, id, settings, env), id);
  }

  // ---- starting a job that cannot be sent ---------------------------------------------

  /** Not started from a state that leads to sending. */
  predicate Unsendable(s: Status) { s.Queued? || Terminal(s) }

  /** All that can become of such a job: a queued one can still fail or be cancelled. */
  function Refused(s: Status, to: Status): Status {
    if s.Queued? && (to.Failed? || to.Cancelled?) then to else s
  }

  lemma MoveUnsendable(w: World, id: int, to: Status)
    requires Sound(w) && id in w.jobs && Unsendable(w.jobs[id].status) && !to.Preparing?
    ensures var w' := SafeMove(w, id, to);
      Step(w, w', id) && w'.jobs[id] == w.jobs[id].(status := Refused(w.jobs[id].status, to))
  {
    hide Sound, OnlyJob;
    MoveStep(w, id, to);
  }

  lemma ConcludeUnsendable(w: World, id: int, ending: Ending)
    requires Sound(w) && id in w.jobs && Unsendable(w.jobs[id].status)
    ensures var s := w.jobs[id].status;
      var w' := Conclude(w, id, ending, true);
      Step(w, w', id)
      && w'.jobs[id] == w.jobs[id].(status := if ending.finish.PortGone? then s else Refused(s, Failed))
  {
    assert SafeMove(SafeMove(w, id, Plotting), id, Completing) == w;
    match ending.finish {
      case PortGone => MoveUnsendable(w, id, Disconnect);
      case Broke => MoveUnsendable(w, id, Failed);
      case Answered =>
        var w3 := Answers(w, id, ending.gate);
        AnswersStep(w, id, ending.gate);
        assert SafeMove(w3, id, Completed) == w3;
        MoveUnsendable(w3, id, Failed);
        StepTwice(w, w3, SafeMove(w3, id, Failed), id);
    }
  }

  /** Where the stream of such a job leads. */
  function RefusedFirst(s: Status, o: S.Outcome, ending: Ending): Status {
    match o
    case Sent(_) => if ending.finish.PortGone? then s else Refused(s, Failed)
    case Interrupted(PausedByUser) => s
    case Interrupted(CancelledByUser) => Refused(s, Cancelled)
    case Interrupted(_) => Refused(s, Failed)
    case Disconnected => s
  }

  lemma FirstUnsendable(w: World, id: int, o: S.Outcome, settings: Settings, env: StartEnv)
    requires Sound(w) && id in w.jobs && Unsendable(w.jobs[id].status)
    ensures var w' := SettleFirst(w, id, o, settings, env);
      Step(w, w', id) && w'.jobs[id] == w.jobs[id].(status := RefusedFirst(w.jobs[id].status, o, env.ending))
  {
    match o {
      case Sent(_) => ConcludeUnsendable(w, id, env.ending);
      case Interrupted(reason) =>
        if reason.PausedByUser? {
          assert SafeMove(w, id, Paused) == w && Resume(w, id, settings, env.second) == w;
        } else {
          MoveUnsendable(w, id, if reason.CancelledByUser? then Cancelled else Failed);
        }
      case Disconnected => MoveUnsendable(w, id, Disconnect);
    }
  }

  lemma LaunchUnsendable(w: World, id: int, settings: Settings, env: StartEnv)
    requires Sound(w) && id in w.jobs && Unsendable(w.jobs[id].status)
    ensures var job := w.jobs[id];
      var run := FirstRun(job, settings, env);
      var w' := Launch(w, id, settings, env);
      && Step(w, w', id) && w.log + [StreamEnded(id, run.0)] <= w'.log
      && w'.jobs[id] == AfterFirst(job, run).(status := RefusedFirst(job.status, run.0, env.ending))
  {
    var run := FirstRun(w.jobs[id], settings, env);
    StreamedStep(w, id, 0, run);
    var w1 := Streamed(w, id, 0, run);
    FirstUnsendable(w1, id, run.0, settings, env);
    StepTwice(w, w1, Launch(w, id, settings, env), id);
  }

  // ---- one start command --------------------------------------------------------------

  predicate Rests(s: Status) { !s.Preparing? && !s.Plotting? && !s.Completing? }

  /** The job after a start that could put it into sending. */
  function Started(job: Job, settings: Settings, env: StartEnv): Job {
    if !env.driver then job.(status := Failed)
    else
      var run := FirstRun(job, settings, env);
      var job1 := AfterFirst(job, run);
      job1.(status := FinalOfFirst(job1, run.0, settings, env), sent := SentAfterFirst(job1, run.0, settings, env))
  }

  lemma FlagStep(w: World, w': World, id: int, b: bool)
    requires Step(w, w', id)
    ensures Step(w.(streaming := b), w'.(streaming := b), id)
  {
    HistorySame(w');
  }

  lemma HistorySame(w: World)
    ensures Sound(w) ==> forall b :: Sound(w.(streaming := b))
  {
  }

  /** A start of a ready, paused or still-sending job: its exact result. */
  lemma StartSends(w: World, id: int, settings: Settings, env: StartEnv)
    requires Sound(w) && id in w.jobs && !w.streaming
    requires Startable(w.jobs[id].status) || w.jobs[id].status == Sending
    ensures var w' := DoStart(w, id, settings, env);
      Step(w, w', id) && w'.jobs[id] == Started(w.jobs[id], settings, env)
  {
    var w1 := if Startable(w.jobs[id].status) then SafeMove(w, id, Sending) else w;
    MoveStep(w, id, Sending);
    assert Step(w, w1, id) && w1.jobs[id] == w.jobs[id].(status := Sending);
    if !env.driver {
      MoveStep(w1, id, Failed);
      StepTwice(w, w1, SafeMove(w1, id, Failed), id);
    } else {
      var w2 := w1.(streaming := true);
      HistorySame(w1);
      LaunchSending(w2, id, settings, env);
      SameFirst(w2.jobs[id], w.jobs[id], settings, env);
      var w3 := Launch(w2, id, settings, env);
      FlagStep(w2, w3, id, false);
      assert w2.(streaming := false) == w1;
      StepTwice(w, w1, w3.(streaming := false), id);
    }
  }

  lemma SameFirst(a: Job, b: Job, settings: Settings, env: StartEnv)
    requires a == b.(status := a.status)
    ensures FirstRun(a, settings, env) == FirstRun(b, settings, env)
    ensures var run := FirstRun(a, settings, env);
      var a1, b1 := AfterFirst(a, run), AfterFirst(b, run);
      && FinalOfFirst(a1, run.0, settings, env) == FinalOfFirst(b1, run.0, settings, env)
      && SentAfterFirst(a1, run.0, settings, env) == SentAfterFirst(b1, run.0, settings, env)
      && a1 == b1.(status := a.status)
  {
    var run := FirstRun(a, settings, env);
    SameSecond(AfterFirst(a, run), AfterFirst(b, run), settings, env.second);
  }

  /** The job after a start that could not put it into sending. */
  function StartedAnyway(job: Job, settings: Settings, env: StartEnv): Job {
    if !env.driver then job.(status := Refused(job.status, Failed))
    else
      var run := FirstRun(job, settings, env);
      AfterFirst(job, run).(status := RefusedFirst(job.status, run.0, env.ending))
  }

  /** A start of any other job still streams its whole payload, from the first byte; its exact
      result: a queued job can only become failed or cancelled, a terminal one keeps its status. */
  lemma StartRefused(w: World, id: int, settings: Settings, env: StartEnv)
    requires Sound(w) && id in w.jobs && !w.streaming && Unsendable(w.jobs[id].status)
    ensures var w' := DoStart(w, id, settings, env);
      Step(w, w', id) && w'.jobs[id] == StartedAnyway(w.jobs[id], settings, env)
      && (env.driver ==> w.log + [StreamEnded(id, FirstRun(w.jobs[id], settings, env).0)] <= w'.log)
    ensures var after := StartedAnyway(w.jobs[id], settings, env).status;
      if Terminal(w.jobs[id].status) then after == w.jobs[id].status
      else after == Queued || after == Failed || after == Cancelled
  {
    if !env.driver {
      MoveUnsendable(w, id, Failed);
    } else {
      var w2 := w.(streaming := true);
      HistorySame(w);
      LaunchUnsendable(w2, id, settings, env);
      var w3 := Launch(w2, id, settings, env);
      FlagStep(w2, w3, id, false);
      assert w2.(streaming := false) == w;
    }
  }

  /** The history clean-up after completion always raises.  A completed job is not harmed by it,
      but a start of a queued job whose stream and sentinel all went well ends failed. */
  lemma CleanUpFailsQueued(w: World, id: int, settings: Settings, env: StartEnv)
    requires id in w.jobs && w.jobs[id].status == Queued && env.driver
    requires FirstRun(w.jobs[id], settings, env).0.Sent? && env.ending.finish.Answered? && GateOpen(env.ending.gate)
    ensures DoStart(w, id, settings, env).jobs[id].status == Failed
  {
    var run := FirstRun(w.jobs[id], settings, env);
    var w1 := Streamed(w.(streaming := true), id, 0, run);
    assert w1.jobs[id].status == Queued;
    assert SafeMove(SafeMove(w1, id, Plotting), id, Completing) == w1;
    var w3 := Answers(w1, id, env.ending.gate);
    assert SafeMove(w3, id, Completed) == w3;
  }

  // ---- terminal states ----------------------------------------------------------------

  lemma {:induction false} HistoryGrows(log: seq<Event>, log': seq<Event>, id: int)
    requires log <= log'
    ensures History(log, id) <= History(log', id)
    decreases |log'|
  {
    if |log'| > |log| {
      HistoryGrows(log, log'[..|log'| - 1], id);
    } else {
      assert log == log';
    }
  }

  lemma {:induction false} PathEnds(path: seq<Status>, path': seq<Status>)
    requires path <= path' && IsPath(path') && Terminal(Last(path))
    ensures path' == path
    decreases |path'|
  {
    if |path'| > |path| {
      PathEnds(path, path'[..|path'| - 1]);
    }
  }

  /** Nothing leaves a terminal state. */
  lemma TerminalStays(w: World, w': World, id: int)
    requires Tracked(w) && Tracked(w') && w.log <= w'.log
    requires id in w.jobs && id in w'.jobs && Terminal(w.jobs[id].status)
    ensures w'.jobs[id].status == w.jobs[id].status
  {
    HistoryGrows(w.log, w'.log, id);
    PathEnds(History(w.log, id), History(w'.log, id));
  }
}
