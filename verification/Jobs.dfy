/** Jobs, their state machine and the store that guards it: which status may follow which, and
    what the store says when one may not. */
module Jobs {
  import opened Text
  import Streamer

  datatype Status =
    | Queued | Preparing | Ready | Sending | Plotting | Paused | Completing
    | Completed | Cancelled | Failed | Disconnect

  /** The table of allowed transitions. */
  function Targets(s: Status): set<Status> {
    match s
    case Queued => {Preparing, Cancelled, Failed}
    case Preparing => {Ready, Failed, Cancelled, Disconnect}
    case Ready => {Sending, Cancelled, Failed}
    case Sending => {Plotting, Paused, Cancelled, Failed, Disconnect}
    case Plotting => {Completing, Paused, Cancelled, Failed, Disconnect}
    case Paused => {Sending, Plotting, Cancelled, Failed, Disconnect}
    case Completing => {Completed, Failed, Cancelled, Disconnect}
    case _ => {}
  }

  predicate Terminal(s: Status) { s.Completed? || s.Cancelled? || s.Failed? || s.Disconnect? }

  /** Jobs that may not be deleted. */
  predicate Active(s: Status) { s.Sending? || s.Plotting? || s.Completing? || s.Paused? }

  datatype Job = Job(status: Status, hpgl: string, total: nat, sent: nat)

  datatype StoreError = JobNotFound | IllegalTransition
  datatype Result<+T> = Ok(value: T) | Err(error: StoreError)

  /** What happens to a job, in order: status changes, the end of a stream call, the sentinel's
      answer, the final error query (None when its answer cannot be read). */
  datatype Event =
    | Moved(id: int, to: Status) | StreamEnded(id: int, outcome: Streamer.Outcome)
    | SentinelRead(id: int) | GateRead(id: int, code: Option<nat>)

  datatype World = World(jobs: map<int, Job>, log: seq<Event>, streaming: bool)

  // ---- store operations on values -----------------------------------------------------

  predicate CanMove(w: World, id: int, to: Status) { id in w.jobs && to in Targets(w.jobs[id].status) }

  function MoveTo(w: World, id: int, to: Status): World
    requires id in w.jobs
  {
    w.(jobs := w.jobs[id := w.jobs[id].(status := to)], log := w.log + [Moved(id, to)])
  }

  /** A status change that is simply not made when it is not allowed. */
  function SafeMove(w: World, id: int, to: Status): World {
    if CanMove(w, id, to) then MoveTo(w, id, to) else w
  }

  function Record(w: World, e: Event): World { w.(log := w.log + [e]) }

  /** The progress hook's last report, if there was one. */
  function Progress(w: World, id: int, base: nat, reported: Option<nat>): World {
    if reported.Some? && id in w.jobs
    then w.(jobs := w.jobs[id := w.jobs[id].(sent := base + reported.value)])
    else w
  }

  // ---- the store ----------------------------------------------------------------------

  class JobStore {
    var jobs: map<int, Job>
    ghost var log: seq<Event>

    constructor ()
      ensures jobs == map[] && log == []
    {
      jobs, log := map[], [];
    }

    ghost function View(streaming: bool): World
      reads this
    {
      World(jobs, log, streaming)
    }

    method Create(id: int, hpgl: string)
      requires id !in jobs
      modifies this
      ensures jobs == old(jobs)[id := Job(Queued, hpgl, 0, 0)] && log == old(log)
    {
      jobs := jobs[id := Job(Queued, hpgl, 0, 0)];
    }

    method Get(id: int) returns (r: Result<Job>)
      ensures r == if id in jobs then Ok(jobs[id]) else Err(JobNotFound)
    {
      r := if id in jobs then Ok(jobs[id]) else Err(JobNotFound);
    }

    /** Read, check against the table, write back, notify. */
    method SetState(id: int, to: Status) returns (r: Result<Job>)
      modifies this
      ensures forall b :: View(b) == SafeMove(old(View(b)), id, to)
      ensures jobs.Keys == old(jobs).Keys
      ensures id !in old(jobs) ==> r == Err(JobNotFound)
      ensures id in old(jobs) && to !in Targets(old(jobs)[id].status) ==> r == Err(IllegalTransition)
      ensures id in old(jobs) && to in Targets(old(jobs)[id].status) ==> r == Ok(jobs[id])
    {
      var got := Get(id);
      if got.Err? {
        return Err(got.error);
      }
      var job := got.value;
      if to !in Targets(job.status) {
        return Err(IllegalTransition);
      }
      job := job.(status := to);
      jobs := jobs[id := job];
      log := log + [Moved(id, to)];
      r := Ok(job);
    }

    /** Byte counters are written back whatever the status; the status is left alone. */
    method Update(id: int, sent: nat, total: Option<nat>) returns (r: Result<Job>)
      modifies this
      ensures log == old(log)
      ensures id !in old(jobs) ==> r == Err(JobNotFound) && jobs == old(jobs)
      ensures id in old(jobs) ==>
        (var was := old(jobs)[id];
         var now := was.(sent := sent, total := if total.Some? then total.value else was.total);
         r == Ok(now) && jobs == old(jobs)[id := now])
    {
      var got := Get(id);
      if got.Err? {
        return Err(got.error);
      }
      var job := got.value.(sent := sent);
      if total.Some? {
        job := job.(total := total.value);
      }
      jobs := jobs[id := job];
      r := Ok(job);
    }

    /** Deletion is refused exactly while a job is active. */
    method Delete(id: int) returns (r: Result<()>)
      modifies this
      ensures log == old(log)
      ensures id !in old(jobs) ==> r == Err(JobNotFound) && jobs == old(jobs)
      ensures id in old(jobs) && Active(old(jobs)[id].status) ==> r == Err(IllegalTransition) && jobs == old(jobs)
      ensures id in old(jobs) && !Active(old(jobs)[id].status) ==> r == Ok(()) && jobs == old(jobs) - {id}
    {
      var got := Get(id);
      if got.Err? {
        return Err(got.error);
      }
      if Active(got.value.status) {
        return Err(IllegalTransition);
      }
      jobs := jobs - {id};
      r := Ok(());
    }
  }

  // ---- histories ----------------------------------------------------------------------

  /** The statuses a job went through, oldest first. */
  function History(log: seq<Event>, id: int): seq<Status> {
    if log == [] then []
    else
      var before := History(log[..|log| - 1], id);
      match log[|log| - 1]
      case Moved(k, to) => if k == id then before + [to] else before
      case _ => before
  }

  function Last(path: seq<Status>): Status {
    if path == [] then Queued else path[|path| - 1]
  }

  /** Every step from `Queued` is in the table. */
  predicate IsPath(path: seq<Status>)
    decreases |path|
  {
    path == [] || (IsPath(path[..|path| - 1]) && Last(path) in Targets(Last(path[..|path| - 1])))
  }

  /** A job's status is where its history leads. */
  ghost predicate Tracked(w: World) {
    forall id :: id in w.jobs ==> IsPath(History(w.log, id)) && w.jobs[id].status == Last(History(w.log, id))
  }

  lemma HistorySnoc(log: seq<Event>, e: Event, id: int)
    ensures History(log + [e], id) ==
      (if e.Moved? && e.id == id then History(log, id) + [e.to] else History(log, id))
  {
    assert (log + [e])[..|log|] == log;
  }

  lemma MoveTracked(w: World, id: int, to: Status)
    requires Tracked(w)
    ensures Tracked(SafeMove(w, id, to))
  {
    if CanMove(w, id, to) {
      var w' := MoveTo(w, id, to);
      forall k | k in w'.jobs
        ensures IsPath(History(w'.log, k)) && w'.jobs[k].status == Last(History(w'.log, k))
      {
        HistorySnoc(w.log, Moved(id, to), k);
        var path := History(w.log, k);
        assert (path + [to])[..|path|] == path;
      }
    }
  }

  lemma RecordTracked(w: World, e: Event)
    requires Tracked(w) && !e.Moved?
    ensures Tracked(Record(w, e))
  {
    forall k | k in w.jobs
      ensures History(Record(w, e).log, k) == History(w.log, k)
    {
      HistorySnoc(w.log, e, k);
    }
  }

  lemma ProgressTracked(w: World, id: int, base: nat, reported: Option<nat>)
    requires Tracked(w)
    ensures Tracked(Progress(w, id, base, reported))
  {
  }

  // ---- what the table says ------------------------------------------------------------

  /** How far along its way a job is; a paused one is as far as a sending one. */
  function Stage(s: Status): int {
    match s
    case Queued => 0
    case Preparing => 1
    case Ready => 2
    case Sending => 3
    case Paused => 3
    case Plotting => 4
    case Completing => 5
    case Completed => 6
    case _ => -1
  }

  /** The whole table in four rules: a job goes on to the next stage; it is paused while sending or
      plotting and taken back to either; until it is over it can be cancelled or fail; and it can
      be cut off once the plotter is involved, which it is neither while queued nor while ready. */
  lemma TableExactly(s: Status, to: Status)
    ensures to in Targets(s) <==>
      || (Stage(to) == Stage(s) + 1 && Stage(s) >= 0 && !s.Paused? && !to.Paused?)
      || (to.Paused? && (s.Sending? || s.Plotting?))
      || (s.Paused? && (to.Sending? || to.Plotting?))
      || ((to.Cancelled? || to.Failed?) && !Terminal(s))
      || (to.Disconnect? && !Terminal(s) && !s.Queued? && !s.Ready?)
  {
  }

  // ---- what the table forces ----------------------------------------------------------

  /** `path` visits the stages in order, with anything in between. */
  predicate Visits(path: seq<Status>, stages: seq<Status>)
    decreases |path|
  {
    if stages == [] then true
    else if path == [] then false
    else if path[|path| - 1] == stages[|stages| - 1] then Visits(path[..|path| - 1], stages[..|stages| - 1])
    else Visits(path[..|path| - 1], stages)
  }

  const STAGES: seq<Status> := [Preparing, Ready, Sending, Plotting, Completing, Completed]

  /** How many stages a job in this status must already have passed. */
  function Passed(s: Status): nat {
    match s
    case Preparing => 1
    case Ready => 2
    case Sending => 3
    case Paused => 3
    case Plotting => 4
    case Completing => 5
    case Completed => 6
    case _ => 0
  }

  lemma {:induction false} PathVisits(path: seq<Status>)
    requires IsPath(path)
    ensures Visits(path, STAGES[..Passed(Last(path))])
    decreases |path|
  {
    if path != [] {
      var before := path[..|path| - 1];
      PathVisits(before);
      var k := Passed(Last(path));
      if k > 0 {
        VisitsFewer(before, Passed(Last(before)), if Last(path).Paused? then k else k - 1);
        assert STAGES[..k][..k - 1] == STAGES[..k - 1];
      }
    }
  }

  lemma {:induction false} VisitsFewer(path: seq<Status>, n: nat, m: nat)
    requires m <= n <= 6 && Visits(path, STAGES[..n])
    ensures Visits(path, STAGES[..m])
    decreases |path|
  {
    if m > 0 && path != [] {
      var before := path[..|path| - 1];
      assert STAGES[..n][..n - 1] == STAGES[..n - 1] && STAGES[..m][..m - 1] == STAGES[..m - 1];
      if path[|path| - 1] == STAGES[n - 1] {
        VisitsFewer(before, n - 1, if path[|path| - 1] == STAGES[m - 1] then m - 1 else if m == n then m - 1 else m);
      } else {
        VisitsFewer(before, n, if path[|path| - 1] == STAGES[m - 1] then m - 1 else m);
      }
    }
  }

  /** A completed job was prepared, ready, sent, plotted and completing, in that order. */
  lemma CompletedVisitsAll(w: World, id: int)
    requires Tracked(w) && id in w.jobs && w.jobs[id].status == Completed
    ensures Visits(History(w.log, id), STAGES)
  {
    PathVisits(History(w.log, id));
    assert STAGES[..6] == STAGES;
  }
}
