/** The hardware worker: prepare, start, pause, resume, cancel, complete.  Every exception path
    is a branch; what the port, the user and the device manager do is a parameter. */
module Worker {
  import opened Text
  import Numbers
  import Device
  import S = Streamer
  import opened Jobs

  // ---- the environment of one command -------------------------------------------------

  /** How the wait for the sentinel ends. */
  datatype Finish = Answered | PortGone | Broke

  /** The sentinel wait and the final error query; an unreadable answer counts as clean. */
  datatype Ending = Ending(finish: Finish, gate: Option<nat>)

  /** Why a paused job's wait ends.  A shutdown raises the stop flag and right after it the cancel
      flag; `StopSeen` is a wait that ends between the two. */
  datatype Wake = ResumeAsked | CancelAsked | Shutdown | StopSeen

  /** With the cancel flag up the job stays as it is; otherwise it is resumed. */
  predicate GoesOn(wake: Wake) { wake.ResumeAsked? || wake.StopSeen? }

  /** A resumed stream: whether a driver is still there, what its port does, how it ends. */
  datatype Second = Second(driver: bool, stream: S.Env, ending: Ending)

  datatype StartEnv = StartEnv(driver: bool, stream: S.Env, ending: Ending, wake: Wake, second: Second)

  datatype Settings = Settings(margin: nat, chunk: nat, retries: nat)

  /** The plotter's answer about its hard clip when a job is prepared. */
  datatype ClipAnswer = Limits(clip: Device.Clip) | Flaked | Unavailable

  datatype PrepareEnv = PrepareEnv(connected: bool, answer: ClipAnswer)

  const STALL_POLLS: nat := 240
  const DEFAULT_RETRIES: nat := 3

  function FirstConfig(s: Settings): S.Config { S.Config(s.margin, s.chunk, s.retries, STALL_POLLS) }

  /** A resumed stream is built without the configured retry count. */
  function ResumeConfig(s: Settings): S.Config { S.Config(s.margin, s.chunk, DEFAULT_RETRIES, STALL_POLLS) }

  predicate ClipFits(paper: Device.Clip, limits: Device.Clip) {
    paper.xmin >= limits.xmin && paper.ymin >= limits.ymin && paper.xmax <= limits.xmax && paper.ymax <= limits.ymax
  }

  // ---- preparing ----------------------------------------------------------------------

  predicate Unfit(job: Job, paper: Device.Clip, env: PrepareEnv) {
    || !env.connected
    || env.answer.Unavailable?
    || (env.answer.Limits? && !ClipFits(paper, env.answer.clip))
    || Numbers.Strip(job.hpgl) == ""
  }

  function Prepare(w: World, id: int, paper: Device.Clip, env: PrepareEnv): World {
    if !CanMove(w, id, Preparing) then w
    else
      var w1 := MoveTo(w, id, Preparing);
      var job := w1.jobs[id];
      if Unfit(job, paper, env) then SafeMove(w1, id, Failed)
      else SafeMove(w1.(jobs := w1.jobs[id := job.(total := |job.hpgl|, sent := 0)]), id, Ready)
  }

  // ---- streaming ----------------------------------------------------------------------

  /** After all bytes are out: wait for the sentinel, look at the error register, complete.  On
      the first stream a lost port has a state of its own, and the history clean-up that follows
      completion always raises, which the last handler turns into one more refused change. */
  function Conclude(w: World, id: int, ending: Ending, first: bool): World {
    var w2 := SafeMove(SafeMove(w, id, Plotting), id, Completing);
    match ending.finish
    case PortGone => SafeMove(w2, id, if first then Disconnect else Failed)
    case Broke => SafeMove(w2, id, Failed)
    case Answered =>
      var w3 := Jobs.Record(Jobs.Record(w2, SentinelRead(id)), GateRead(id, ending.gate));
      if ending.gate.Some? && ending.gate.value != 0 then SafeMove(w3, id, Failed)
      else
        var w4 := SafeMove(w3, id, Completed);
        if first then SafeMove(w4, id, Failed) else w4
  }

  /** The end of a stream call and what was reported on the way. */
  function Streamed(w: World, id: int, base: nat, run: (S.Outcome, S.State)): World {
    Jobs.Record(Progress(w, id, base, run.1.reported), StreamEnded(id, run.0))
  }

  function Rest(job: Job): string { if job.sent < |job.hpgl| then job.hpgl[job.sent..] else "" }

  function SecondRun(job: Job, settings: Settings, second: Second): (S.Outcome, S.State) {
    S.Run(ResumeConfig(settings), second.stream, Rest(job), S.Start(S.FRESH_PORT))
  }

  /** How a resumed stream's outcome is classified: a lost port is an ordinary failure here. */
  function SettleSecond(w: World, id: int, o: S.Outcome, ending: Ending): World {
    match o
    case Sent(_) => Conclude(w, id, ending, false)
    case Interrupted(PausedByUser) => SafeMove(w, id, Paused)
    case Interrupted(CancelledByUser) => SafeMove(w, id, Cancelled)
    case _ => SafeMove(w, id, Failed)
  }

  /** Resuming after the wait.  A refused change or a missing driver raises out of the worker's
      handlers: the first leaves everything as it is, the second leaves the job sending. */
  function Resume(w: World, id: int, settings: Settings, second: Second): World {
    if !CanMove(w, id, Sending) then w
    else
      var job := w.jobs[id];
      var w1 := MoveTo(w, id, Sending);
      if !second.driver then w1
      else
        var run := SecondRun(job, settings, second);
        SettleSecond(Streamed(w1, id, job.sent, run), id, run.0, second.ending)
  }

  function FirstRun(job: Job, settings: Settings, env: StartEnv): (S.Outcome, S.State) {
    S.Run(FirstConfig(settings), env.stream, job.hpgl, S.Start(S.FRESH_PORT))
  }

  /** How the first stream's outcome is classified. */
  function SettleFirst(w: World, id: int, o: S.Outcome, settings: Settings, env: StartEnv): World {
    match o
    case Sent(_) => Conclude(w, id, env.ending, true)
    case Interrupted(PausedByUser) =>
      var paused := SafeMove(w, id, Paused);
      if GoesOn(env.wake) then Resume(paused, id, settings, env.second) else paused
    case Interrupted(CancelledByUser) => SafeMove(w, id, Cancelled)
    case Interrupted(_) => SafeMove(w, id, Failed)
    case Disconnected => SafeMove(w, id, Disconnect)
  }

  function Launch(w: World, id: int, settings: Settings, env: StartEnv): World
    requires id in w.jobs
  {
    var run := FirstRun(w.jobs[id], settings, env);
    SettleFirst(Streamed(w, id, 0, run), id, run.0, settings, env)
  }

  predicate Startable(s: Status) { s.Ready? || s.Paused? }

  function DoStart(w: World, id: int, settings: Settings, env: StartEnv): World {
    if id !in w.jobs then w
    else
      var w1 := if Startable(w.jobs[id].status) then SafeMove(w, id, Sending) else w;
      if !env.driver then SafeMove(w1, id, Failed)
      else Launch(w1.(streaming := true), id, settings, env).(streaming := false)
  }

  // ---- the worker ---------------------------------------------------------------------

  datatype Order = PrepareOrder | StartOrder | PauseOrder | ResumeOrder | CancelOrder | ResetOrder

  /** Jobs that keep the lane from another job. */
  predicate Busy(s: Status) { s.Preparing? || s.Ready? || Active(s) }

  /** Those are the jobs that have been taken up and are not over; and the ones that must not be deleted
      are those among them that have begun to be sent. */
  lemma BusyExactly(s: Status)
    ensures Busy(s) <==> !s.Queued? && !Terminal(s)
    ensures Active(s) <==> Busy(s) && !s.Preparing? && !s.Ready?
  {
  }

  class HardwareWorker {
    const store: JobStore
    const settings: Settings
    var streaming: bool
    var pausing: bool
    var cancelling: bool
    var current: Option<int>
    var queue: seq<(Order, int)>

    constructor (store: JobStore, settings: Settings)
      ensures this.store == store && this.settings == settings
      ensures !streaming && !pausing && !cancelling && current == None && queue == []
    {
      this.store, this.settings, streaming := store, settings, false;
      pausing, cancelling, current, queue := false, false, None, [];
    }

    predicate Claims(order: Order) { order.PrepareOrder? || order.StartOrder? }

    /** The lane is held by another job that is still there. */
    predicate LaneBusy(id: int)
      reads this, store
    {
      current.Some? && current.value != id && current.value in store.jobs && Busy(store.jobs[current.value].status)
    }

    /** Accept or refuse an order.  Preparing and starting are refused exactly while another job
        holds the lane in a busy state, or while the holder has been deleted. */
    method Submit(order: Order, id: int) returns (r: Result<()>)
      modifies this
      ensures streaming == old(streaming)
      ensures (order.PrepareOrder? || order.StartOrder?) && old(LaneBusy(id)) ==> r == Err(IllegalTransition)
      ensures r == Err(IllegalTransition) ==> (order.PrepareOrder? || order.StartOrder?) && old(LaneBusy(id))
      ensures r == Err(JobNotFound) <==>
        && (order.PrepareOrder? || order.StartOrder?)
        && old(current.Some? && current.value != id && current.value !in store.jobs)
      ensures r.Err? ==>
        current == old(current) && queue == old(queue) && pausing == old(pausing) && cancelling == old(cancelling)
      ensures r.Ok? ==> current == if (order.PrepareOrder? || order.StartOrder?) then Some(id) else old(current)
      ensures r.Ok? ==>
        (var signal := order.PauseOrder? || order.ResumeOrder? || order.CancelOrder?;
         queue == if signal then old(queue) else old(queue) + [(order, id)])
      ensures r.Ok? ==>
        pausing == (if order.PauseOrder? then true else if order.ResumeOrder? then false else old(pausing))
      ensures r.Ok? ==> cancelling == (order.CancelOrder? || old(cancelling))
    {
      if Claims(order) {
        if current.Some? && current.value != id {
          var got := store.Get(current.value);
          if got.Err? {
            return Err(got.error);
          }
          if Busy(got.value.status) {
            return Err(IllegalTransition);
          }
        }
        current := Some(id);
      }
      r := Ok(());
      match order {
        case PauseOrder => pausing := true;
        case CancelOrder => cancelling := true;
        case ResumeOrder => pausing := false;
        case _ => queue := queue + [(order, id)];
      }
    }

    /** Serve the oldest order; whatever happened, the lane is given up afterwards. */
    method Serve(paper: Device.Clip, prepareEnv: PrepareEnv, startEnv: StartEnv)
      requires queue != []
      modifies this, store
      ensures queue == old(queue)[1..]
      ensures var (order, id) := old(queue)[0];
        if order.StartOrder? && id in old(store.jobs) && startEnv.driver
        then !pausing && !cancelling && !streaming
        else pausing == old(pausing) && cancelling == old(cancelling) && streaming == old(streaming)
      ensures var (order, id) := old(queue)[0];
        && View() == (match order
             case PrepareOrder => Prepare(old(View()), id, paper, prepareEnv)
             case StartOrder => DoStart(old(View()), id, settings, startEnv)
             case _ => old(View()))
        && current == (if (order.PrepareOrder? || order.StartOrder?) && old(current) == Some(id) then None
                       else old(current))
    {
      var (order, id) := queue[0];
      queue := queue[1..];
      match order {
        case PrepareOrder => DoPrepare(id, paper, prepareEnv);
        case StartOrder => Start(id, startEnv);
        case _ =>
      }
      if Claims(order) && current == Some(id) {
        current := None;
      }
    }

    ghost function View(): World
      reads this, store
    {
      store.View(streaming)
    }

    /** Validate and make ready; any failure inside marks the job failed. */
    method DoPrepare(id: int, paper: Device.Clip, env: PrepareEnv)
      modifies store
      ensures View() == Prepare(old(View()), id, paper, env)
    {
      var got := store.Get(id);
      if got.Err? {
        return;
      }
      var moved := store.SetState(id, Preparing);
      if moved.Err? {
        return;
      }
      var job := moved.value;
      ghost var w1 := View();
      if Unfit(job, paper, env) {
        var _ := store.SetState(id, Failed);
        return;
      }
      var _ := store.Update(id, 0, Some(|job.hpgl|));
      assert View() == w1.(jobs := w1.jobs[id := job.(total := |job.hpgl|, sent := 0)]);
      var _ := store.SetState(id, Ready);
    }

    /** The progress hook: what was last reported is what is stored. */
    method SaveProgress(id: int, base: nat, reported: Option<nat>)
      modifies store
      ensures View() == Progress(old(View()), id, base, reported)
    {
      if reported.Some? {
        ghost var w := View();
        var r := store.Update(id, base + reported.value, None);
        if r.Ok? {
          assert store.jobs == w.jobs[id := w.jobs[id].(sent := base + reported.value)];
        }
      }
    }

    /** One stream call with its progress hook. */
    method StreamJob(id: int, cfg: S.Config, env: S.Env, payload: string, base: nat) returns (o: S.Outcome)
      requires id in store.jobs
      modifies store
      ensures var run := S.Run(cfg, env, payload, S.Start(S.FRESH_PORT));
        o == run.0 && View() == Streamed(old(View()), id, base, run)
    {
      var streamer := new S.ChunkedStreamer(cfg, env);
      ghost var end;
      o, end := streamer.Stream(payload);
      SaveProgress(id, base, streamer.reported);
      store.log := store.log + [StreamEnded(id, o)];
    }

    method Finalize(id: int, ending: Ending, first: bool)
      modifies store
      ensures View() == Conclude(old(View()), id, ending, first)
    {
      var _ := store.SetState(id, Plotting);
      var _ := store.SetState(id, Completing);
      match ending.finish {
        case PortGone => var _ := store.SetState(id, if first then Disconnect else Failed);
        case Broke => var _ := store.SetState(id, Failed);
        case Answered =>
          store.log := store.log + [SentinelRead(id)];
          store.log := store.log + [GateRead(id, ending.gate)];
          var code := if ending.gate.Some? then ending.gate.value else 0;
          if code != 0 {
            var _ := store.SetState(id, Failed);
          } else {
            var _ := store.SetState(id, Completed);
            if first {
              var _ := store.SetState(id, Failed);
            }
          }
      }
    }

    method ResumeStream(id: int, second: Second)
      modifies store
      ensures View() == Resume(old(View()), id, settings, second)
    {
      var got := store.Get(id);
      if got.Err? {
        return;
      }
      var job := got.value;
      var moved := store.SetState(id, Sending);
      if moved.Err? || !second.driver {
        return;
      }
      var o := StreamJob(id, ResumeConfig(settings), second.stream, Rest(job), job.sent);
      match o {
        case Sent(_) => Finalize(id, second.ending, false);
        case Interrupted(PausedByUser) => var _ := store.SetState(id, Paused);
        case Interrupted(CancelledByUser) => var _ := store.SetState(id, Cancelled);
        case _ => var _ := store.SetState(id, Failed);
      }
    }

    /** Start or restart a job; the streaming flag is up exactly while this runs, and signals from before
        are forgotten when it begins to stream. */
    method Start(id: int, env: StartEnv)
      modifies this`streaming, this`pausing, this`cancelling, store
      ensures View() == DoStart(old(View()), id, settings, env)
      ensures id in old(store.jobs) && env.driver ==> !pausing && !cancelling && !streaming
      ensures !(id in old(store.jobs) && env.driver) ==>
        pausing == old(pausing) && cancelling == old(cancelling) && streaming == old(streaming)
    {
      var got := store.Get(id);
      if got.Err? {
        return;
      }
      var job := got.value;
      if Startable(job.status) {
        var _ := store.SetState(id, Sending);
      }
      if !env.driver {
        var _ := store.SetState(id, Failed);
        return;
      }
      pausing, cancelling := false, false;
      streaming := true;
      var o := StreamJob(id, FirstConfig(settings), env.stream, job.hpgl, 0);
      match o {
        case Sent(_) => Finalize(id, env.ending, true);
        case Interrupted(PausedByUser) =>
          var _ := store.SetState(id, Paused);
          if GoesOn(env.wake) {
            ResumeStream(id, env.second);
          }
        case Interrupted(CancelledByUser) => var _ := store.SetState(id, Cancelled);
        case Interrupted(_) => var _ := store.SetState(id, Failed);
        case Disconnected => var _ := store.SetState(id, Disconnect);
      }
      streaming := false;
    }
  }
}
