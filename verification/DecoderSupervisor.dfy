/**
 The single-slot decoder supervisor (profile-service/decoder_process.py) as a transition system:
 `DecoderProcess.normalize` with its cleanup task, for any schedule of requests, spawn
 completions, worker exits, timeouts and repeated cancellations. A step of a job is the code
 between two of its awaits.
 */
module DecoderSupervisor {

  /** The child process, as the operating system knows it; an exited child is live until reaped. */
  datatype Worker = Unrequested | Spawning | SpawnFailed | Running | Exited | Reaped

  /** The shielded cleanup task. */
  datatype Cleanup = AwaitSpawn | Killed | Finished | Broken

  datatype Phase =
    | Rejected                   // invalid upload, or the slot was busy
    | AwaitingSpawn              // inside the timeout, awaiting the shielded spawn
    | Working                    // feeding the worker and reading its output
    | Cleaning(task: Cleanup)    // in `finally`, awaiting the shielded cleanup
    | Released                   // the slot was given back

  /** `processKnown`: the local variable `process` is set; `cancelled`: as in the cleanup loop. */
  datatype Job = Job(phase: Phase, worker: Worker, processKnown: bool, cancelled: bool)

  datatype Supervisor = Supervisor(busy: bool, jobs: seq<Job>)

  datatype Event =
    | Request(valid: bool)
    | SpawnEnds(job: nat, succeeded: bool)
    | SpawnIsSeen(job: nat)          // the requester resumes after the spawn
    | WorkEnds(job: nat)             // the tasks end, or one of them raises
    | Interrupt(job: nat)            // the timeout, or a cancellation, at any await
    | CleanupStarts(job: nat, killRefused: bool)
    | CleanupEnds(job: nat)
    | CleanupIsSeen(job: nat)        // the requester leaves the cleanup loop
    | WorkerExits(job: nat)
    | WorkerIsReaped(job: nat)

  predicate IsJob(s: Supervisor, j: nat) { j < |s.jobs| }

  /** A process of the operating system that has not been waited for. */
  predicate Live(w: Worker) { w == Running || w == Exited }

  predicate Active(j: Job) { j.phase.AwaitingSpawn? || j.phase.Working? || j.phase.Cleaning? }

  predicate Enabled(s: Supervisor, e: Event) {
    match e
    case Request(_) => true
    case SpawnEnds(j, _) => IsJob(s, j) && s.jobs[j].worker.Spawning?
    case SpawnIsSeen(j) => IsJob(s, j) && s.jobs[j].phase.AwaitingSpawn? && !s.jobs[j].worker.Spawning?
    case WorkEnds(j) => IsJob(s, j) && s.jobs[j].phase.Working?
    case Interrupt(j) => IsJob(s, j) && Active(s.jobs[j])
    case CleanupStarts(j, _) =>
      && IsJob(s, j) && s.jobs[j].phase == Cleaning(AwaitSpawn)
      && (s.jobs[j].processKnown || !s.jobs[j].worker.Spawning?)
    case CleanupEnds(j) => IsJob(s, j) && s.jobs[j].phase == Cleaning(Killed) && s.jobs[j].worker.Reaped?
    case CleanupIsSeen(j) =>
      IsJob(s, j) && (s.jobs[j].phase == Cleaning(Finished) || s.jobs[j].phase == Cleaning(Broken))
    case WorkerExits(j) => IsJob(s, j) && s.jobs[j].worker.Running?
    case WorkerIsReaped(j) => IsJob(s, j) && s.jobs[j].worker.Exited?
  }

  function Update(s: Supervisor, j: nat, job: Job): Supervisor
    requires IsJob(s, j)
  {
    s.(jobs := s.jobs[j := job])
  }

  /** The start of cleanup: nothing to do after a failed spawn, else kill a worker still running. */
  function StartCleanup(job: Job, killRefused: bool): Job {
    if !job.processKnown && job.worker.SpawnFailed? then job.(phase := Cleaning(Finished))
    else if job.worker.Running? && killRefused then job.(phase := Cleaning(Broken))
    else job.(phase := Cleaning(Killed))
  }

  function Step(s: Supervisor, e: Event): Supervisor
    requires Enabled(s, e)
  {
    match e
    case Request(valid) =>
      if !valid || s.busy then s.(jobs := s.jobs + [Job(Rejected, Unrequested, false, false)])
      else Supervisor(true, s.jobs + [Job(AwaitingSpawn, Spawning, false, false)])
    case SpawnEnds(j, succeeded) =>
      Update(s, j, s.jobs[j].(worker := if succeeded then Running else SpawnFailed))
    case SpawnIsSeen(j) =>
      if s.jobs[j].worker.SpawnFailed? then Update(s, j, s.jobs[j].(phase := Cleaning(AwaitSpawn)))
      else Update(s, j, s.jobs[j].(phase := Working, processKnown := true))
    case WorkEnds(j) => Update(s, j, s.jobs[j].(phase := Cleaning(AwaitSpawn)))
    case Interrupt(j) =>
      if s.jobs[j].phase.Cleaning? then Update(s, j, s.jobs[j].(cancelled := true))
      else Update(s, j, s.jobs[j].(phase := Cleaning(AwaitSpawn)))
    case CleanupStarts(j, killRefused) => Update(s, j, StartCleanup(s.jobs[j], killRefused))
    case CleanupEnds(j) => Update(s, j, s.jobs[j].(phase := Cleaning(Finished)))
    case CleanupIsSeen(j) => Update(s, j, s.jobs[j].(phase := Released)).(busy := false)
    case WorkerExits(j) => Update(s, j, s.jobs[j].(worker := Exited))
    case WorkerIsReaped(j) => Update(s, j, s.jobs[j].(worker := Reaped))
  }

  predicate IsRun(s: Supervisor, events: seq<Event>)
    decreases |events|
  {
    events == [] || (Enabled(s, events[0]) && IsRun(Step(s, events[0]), events[1..]))
  }

  function Run(s: Supervisor, events: seq<Event>): Supervisor
    requires IsRun(s, events)
    decreases |events|
  {
    if events == [] then s else Run(Step(s, events[0]), events[1..])
  }

  const IDLE := Supervisor(false, [])

  /** The operating system refuses to kill a worker that is still running. */
  predicate RefusesKill(e: Event) { e.CleanupStarts? && e.killRefused }

  predicate NoKillRefused(events: seq<Event>) {
    forall i :: 0 <= i < |events| ==> !RefusesKill(events[i])
  }

  /** The event refuses to kill a worker that does run; elsewhere no kill is tried. */
  predicate LeavesWorker(s: Supervisor, e: Event)
    requires Enabled(s, e)
  {
    RefusesKill(e) && s.jobs[e.job].worker.Running?
  }

  /** No running worker survives the start of its cleanup. */
  predicate KillsSucceed(s: Supervisor, events: seq<Event>)
    requires IsRun(s, events)
    decreases |events|
  {
    events == [] || (!LeavesWorker(s, events[0]) && KillsSucceed(Step(s, events[0]), events[1..]))
  }

  // ----- the class -----

  /**
   The object with its one flag; `jobs` holds the local variables of the calls of `normalize` and
   what the operating system knows of their workers. Each method is the code from one await to the
   next; spawns, exits and reaping are events of the operating system.
   */
  class DecoderProcess {
    var busy: bool
    var jobs: seq<Job>

    function State(): Supervisor reads this { Supervisor(busy, jobs) }

    /** The slot is busy exactly while one job is active, and every job is in order. */
    ghost predicate Valid() reads this { Inv(State()) }

    constructor ()
      ensures Valid() && State() == IDLE
    {
      busy, jobs := false, [];
    }

    /** Takes the slot and starts the spawn, or refuses at once. */
    method Normalize(valid: bool) returns (accepted: bool)
      requires Valid()
      modifies this
      ensures Valid() && State() == Step(old(State()), Request(valid))
      ensures accepted <==> valid && !old(busy)
      ensures accepted ==> Active(jobs[|jobs| - 1]) && forall i :: 0 <= i < |jobs| - 1 ==> !Active(jobs[i])
    {
      StepKeepsInv(State(), Request(valid));
      accepted := valid && !busy;
      if !accepted {
        jobs := jobs + [Job(Rejected, Unrequested, false, false)];
        return;
      }
      busy := true;
      jobs := jobs + [Job(AwaitingSpawn, Spawning, false, false)];
    }

    /** The shielded spawn is over: there is a process to feed, or an error to clean up after. */
    method SeeSpawn(j: nat)
      requires Valid() && Enabled(State(), SpawnIsSeen(j))
      modifies this
      ensures Valid() && State() == Step(old(State()), SpawnIsSeen(j))
    {
      StepKeepsInv(State(), SpawnIsSeen(j));
      if jobs[j].worker.SpawnFailed? {
        EnterFinally(j);
      } else {
        jobs := jobs[j := jobs[j].(phase := Working, processKnown := true)];
      }
    }

    /** A part of the methods here, so it neither asks for the invariant nor gives it. */
    method EnterFinally(j: nat)
      requires j < |jobs|
      modifies this`jobs
      ensures jobs == old(jobs)[j := old(jobs)[j].(phase := Cleaning(AwaitSpawn))]
    {
      jobs := jobs[j := jobs[j].(phase := Cleaning(AwaitSpawn))];
    }

    /** The gathered tasks end or raise. */
    method EndWork(j: nat)
      requires Valid() && Enabled(State(), WorkEnds(j))
      modifies this
      ensures Valid() && State() == Step(old(State()), WorkEnds(j))
    {
      StepKeepsInv(State(), WorkEnds(j));
      EnterFinally(j);
    }

    /** A timeout or a cancellation: the cleanup loop only remembers it, anything else gives way. */
    method OnInterrupt(j: nat)
      requires Valid() && Enabled(State(), Interrupt(j))
      modifies this
      ensures Valid() && State() == Step(old(State()), Interrupt(j))
    {
      StepKeepsInv(State(), Interrupt(j));
      if jobs[j].phase.Cleaning? {
        jobs := jobs[j := jobs[j].(cancelled := true)];
      } else {
        EnterFinally(j);
      }
    }

    /** `cleanup` up to its wait for the process: an error other than "no such process" breaks it off. */
    method BeginCleanup(j: nat, killRefused: bool)
      requires Valid() && Enabled(State(), CleanupStarts(j, killRefused))
      modifies this
      ensures Valid() && State() == Step(old(State()), CleanupStarts(j, killRefused))
    {
      StepKeepsInv(State(), CleanupStarts(j, killRefused));
      var job := jobs[j];
      if !job.processKnown && job.worker.SpawnFailed? {
        jobs := jobs[j := job.(phase := Cleaning(Finished))];
        return;
      }
      if job.worker.Running? && killRefused {
        jobs := jobs[j := job.(phase := Cleaning(Broken))];
        return;
      }
      jobs := jobs[j := job.(phase := Cleaning(Killed))];
    }

    method EndCleanup(j: nat)
      requires Valid() && Enabled(State(), CleanupEnds(j))
      modifies this
      ensures Valid() && State() == Step(old(State()), CleanupEnds(j))
    {
      StepKeepsInv(State(), CleanupEnds(j));
      jobs := jobs[j := jobs[j].(phase := Cleaning(Finished))];
    }

    /** The last `finally`: whatever the cleanup task did, the slot is given back. */
    method Release(j: nat)
      requires Valid() && Enabled(State(), CleanupIsSeen(j))
      modifies this
      ensures Valid() && State() == Step(old(State()), CleanupIsSeen(j))
      ensures forall i :: 0 <= i < |jobs| ==> !Active(jobs[i])
    {
      StepKeepsInv(State(), CleanupIsSeen(j));
      jobs := jobs[j := jobs[j].(phase := Released)];
      busy := false;
    }
  }

  // ----- the invariant -----

  ghost predicate JobInv(j: Job) {
    && (j.phase.Rejected? ==> j.worker.Unrequested?)
    && (j.worker.Unrequested? ==> j.phase.Rejected?)
    && (j.phase.Working? ==> j.processKnown)
    && (j.processKnown ==> Live(j.worker) || j.worker.Reaped?)
    && (j.phase == Cleaning(Killed) ==> Live(j.worker) || j.worker.Reaped?)
    && (j.phase == Cleaning(Finished) ==> j.worker.Reaped? || j.worker.SpawnFailed?)
  }

  /** Each job is in order, the slot is busy exactly while one job is active, and one is the most. */
  ghost predicate Inv(s: Supervisor) {
    && (forall j :: 0 <= j < |s.jobs| ==> JobInv(s.jobs[j]))
    && (s.busy <==> exists j :: 0 <= j < |s.jobs| && Active(s.jobs[j]))
    && (forall i, j :: 0 <= i < j < |s.jobs| ==> !(Active(s.jobs[i]) && Active(s.jobs[j])))
  }

  /** No released job left a process behind. */
  ghost predicate Tidy(s: Supervisor) {
    forall j :: 0 <= j < |s.jobs| ==>
      && s.jobs[j].phase != Cleaning(Broken)
      && (s.jobs[j].phase.Released? ==> s.jobs[j].worker.Reaped? || s.jobs[j].worker.SpawnFailed?)
  }

  lemma RequestKeepsInv(s: Supervisor, valid: bool)
    requires Inv(s)
    ensures Inv(Step(s, Request(valid)))
  {
    var t := Step(s, Request(valid));
    if t.busy && !s.busy { assert Active(t.jobs[|s.jobs|]); }
    if s.busy {
      var j :| 0 <= j < |s.jobs| && Active(s.jobs[j]);
      assert t.jobs[j] == s.jobs[j];
    }
  }

  /** One job moves on: it stays active and the slot busy, or both end together. */
  lemma UpdateKeepsInv(s: Supervisor, k: nat, job: Job)
    requires Inv(s) && IsJob(s, k) && JobInv(job)
    ensures Active(job) == Active(s.jobs[k]) ==> Inv(Update(s, k, job))
    ensures Active(s.jobs[k]) && !Active(job) ==> Inv(Update(s, k, job).(busy := false))
  {
    var t := Update(s, k, job);
    assert forall j :: 0 <= j < |s.jobs| && j != k ==> t.jobs[j] == s.jobs[j];
    if s.busy {
      var j :| 0 <= j < |s.jobs| && Active(s.jobs[j]);
      if Active(job) == Active(s.jobs[k]) { assert Active(t.jobs[j]); }
    }
  }

  lemma StepKeepsInv(s: Supervisor, e: Event)
    requires Inv(s) && Enabled(s, e)
    ensures Inv(Step(s, e))
  {
    if e.Request? {
      RequestKeepsInv(s, e.valid);
    } else {
      assert JobInv(s.jobs[e.job]);
      var job := Step(s, e).jobs[e.job];
      assert JobInv(job);
      UpdateKeepsInv(s, e.job, job);
    }
  }

  /** Only a refused kill of a running worker breaks tidiness, and it always does. */
  lemma StepKeepsTidy(s: Supervisor, e: Event)
    requires Inv(s) && Tidy(s) && Enabled(s, e)
    ensures Tidy(Step(s, e)) <==> !LeavesWorker(s, e)
  {
    if LeavesWorker(s, e) {
      assert Step(s, e).jobs[e.job].phase == Cleaning(Broken);
    }
  }

  /** Tidy at the start, after every event, and at the end. */
  ghost predicate AlwaysTidy(s: Supervisor, events: seq<Event>)
    requires IsRun(s, events)
    decreases |events|
  {
    Tidy(s) && (events == [] || AlwaysTidy(Step(s, events[0]), events[1..]))
  }

  /** A run is tidy throughout if and only if every kill of a running worker succeeds. */
  lemma {:induction false} TidyExactlyWhenKillsSucceed(s: Supervisor, events: seq<Event>)
    requires Inv(s) && Tidy(s) && IsRun(s, events)
    ensures AlwaysTidy(s, events) <==> KillsSucceed(s, events)
    decreases |events|
  {
    if events != [] {
      StepKeepsTidy(s, events[0]);
      StepKeepsInv(s, events[0]);
      if !LeavesWorker(s, events[0]) {
        TidyExactlyWhenKillsSucceed(Step(s, events[0]), events[1..]);
      }
    }
  }

  lemma {:induction false} RunKeepsInv(s: Supervisor, events: seq<Event>)
    requires Inv(s) && IsRun(s, events)
    ensures Inv(Run(s, events))
    ensures Tidy(s) && KillsSucceed(s, events) ==> Tidy(Run(s, events))
    decreases |events|
  {
    if events != [] {
      StepKeepsInv(s, events[0]);
      if Tidy(s) { StepKeepsTidy(s, events[0]); }
      RunKeepsInv(Step(s, events[0]), events[1..]);
    }
  }

  // ----- what holds of every run -----

  /** The slot is busy exactly while a job is active, and no two jobs ever are. */
  lemma SlotBelongsToOneJob(events: seq<Event>, i: nat, j: nat)
    requires IsRun(IDLE, events)
    requires IsJob(Run(IDLE, events), i) && IsJob(Run(IDLE, events), j)
    ensures Active(Run(IDLE, events).jobs[i]) ==> Run(IDLE, events).busy
    ensures Active(Run(IDLE, events).jobs[i]) && Active(Run(IDLE, events).jobs[j]) ==> i == j
  {
    RunKeepsInv(IDLE, events);
  }

  /**
   Unless the kill of a running worker was refused: a live worker belongs to the active job, so the slot is busy and no
   second worker is live, and a released slot left a worker that was reaped or never spawned.
   */
  lemma AtMostOneLiveWorker(events: seq<Event>, i: nat, j: nat)
    requires IsRun(IDLE, events) && KillsSucceed(IDLE, events)
    requires IsJob(Run(IDLE, events), i) && IsJob(Run(IDLE, events), j)
    ensures
      var s := Run(IDLE, events);
      && (Live(s.jobs[i].worker) ==> Active(s.jobs[i]) && s.busy)
      && (Live(s.jobs[i].worker) && Live(s.jobs[j].worker) ==> i == j)
      && (s.jobs[i].phase.Released? ==> s.jobs[i].worker.Reaped? || s.jobs[i].worker.SpawnFailed?)
  {
    RunKeepsInv(IDLE, events);
    var s := Run(IDLE, events);
    assert JobInv(s.jobs[i]) && JobInv(s.jobs[j]);
  }

  /** A cleanup that has begun runs to its end: cancellations only set the flag it raises at last. */
  lemma CleanupIsNotInterrupted(s: Supervisor, j: nat)
    requires IsJob(s, j) && s.jobs[j].phase.Cleaning?
    ensures Enabled(s, Interrupt(j))
    ensures Step(s, Interrupt(j)) == Update(s, j, s.jobs[j].(cancelled := true))
    ensures !Enabled(s, SpawnIsSeen(j)) && !Enabled(s, WorkEnds(j))
    ensures Enabled(s, CleanupIsSeen(j)) ==> s.jobs[j].phase.task.Finished? || s.jobs[j].phase.task.Broken?
  {
  }

  /**
   Where the guarantee ends: at the start of a cleanup the slot will be given back over a worker
   that is still running exactly when the worker runs and the kill is refused with an error other
   than "no such process", which the cleanup does not catch.
   */
  lemma RefusedKillLeaksTheWorker(s: Supervisor, j: nat, killRefused: bool)
    requires Inv(s) && Enabled(s, CleanupStarts(j, killRefused))
    ensures
      var t := Step(s, CleanupStarts(j, killRefused));
      (Enabled(t, CleanupIsSeen(j)) && Live(Step(t, CleanupIsSeen(j)).jobs[j].worker))
      <==> (s.jobs[j].worker.Running? && killRefused)
  {
    assert JobInv(s.jobs[j]);
  }

  lemma RunFrom(s: Supervisor, e: Event, rest: seq<Event>)
    requires Enabled(s, e) && IsRun(Step(s, e), rest)
    ensures IsRun(s, [e] + rest) && Run(s, [e] + rest) == Run(Step(s, e), rest)
  {
    assert ([e] + rest)[1..] == rest;
  }

  /** After one refused kill a second worker can run beside the first. */
  lemma TwoWorkersAfterARefusedKill() returns (events: seq<Event>)
    ensures IsRun(IDLE, events) && |Run(IDLE, events).jobs| == 2
    ensures Live(Run(IDLE, events).jobs[0].worker) && Live(Run(IDLE, events).jobs[1].worker)
  {
    var e1, e2, e3, e4 := Request(true), SpawnEnds(0, true), Interrupt(0), CleanupStarts(0, true);
    var e5, e6 := CleanupIsSeen(0), SpawnEnds(1, true);
    var s1 := Step(IDLE, e1);
    var s2 := Step(s1, e2);
    var s3 := Step(s2, e3);
    var s4 := Step(s3, e4);
    var s5 := Step(s4, e5);
    var s6 := Step(s5, e1);
    RunFrom(s6, e6, []);
    RunFrom(s5, e1, [e6]);
    RunFrom(s4, e5, [e1, e6]);
    RunFrom(s3, e4, [e5, e1, e6]);
    RunFrom(s2, e3, [e4, e5, e1, e6]);
    RunFrom(s1, e2, [e3, e4, e5, e1, e6]);
    RunFrom(IDLE, e1, [e2, e3, e4, e5, e1, e6]);
    events := [e1, e2, e3, e4, e5, e1, e6];
  }

  // ----- the slot is never lost -----

  /** From the end of cleanup the slot is released, with the worker dealt with. */
  lemma FinishCleanup(s: Supervisor, j: nat) returns (rest: seq<Event>)
    requires Inv(s) && IsJob(s, j) && s.jobs[j].phase.Cleaning? && !s.jobs[j].phase.task.AwaitSpawn?
    ensures IsRun(s, rest) && !Run(s, rest).busy && NoKillRefused(rest)
    decreases s.jobs[j].worker.Running?, s.jobs[j].worker.Exited?, s.jobs[j].phase.task.Killed?
  {
    var e :=
      if !s.jobs[j].phase.task.Killed? then CleanupIsSeen(j)
      else if s.jobs[j].worker.Running? then WorkerExits(j)
      else if s.jobs[j].worker.Exited? then WorkerIsReaped(j)
      else CleanupEnds(j);
    assert JobInv(s.jobs[j]);
    StepKeepsInv(s, e);
    rest := [];
    if s.jobs[j].phase.task.Killed? {
      rest := FinishCleanup(Step(s, e), j);
    }
    RunFrom(s, e, rest);
    rest := [e] + rest;
  }

  /** In every reachable state with a busy slot some schedule gives the slot back. */
  lemma SlotCanAlwaysBeReleased(s: Supervisor) returns (rest: seq<Event>)
    requires Inv(s) && s.busy
    ensures IsRun(s, rest) && !Run(s, rest).busy && NoKillRefused(rest)
  {
    var j :| 0 <= j < |s.jobs| && Active(s.jobs[j]);
    rest := ReleaseActive(s, j);
  }

  lemma ReleaseActive(s: Supervisor, j: nat) returns (rest: seq<Event>)
    requires Inv(s) && IsJob(s, j) && Active(s.jobs[j])
    ensures IsRun(s, rest) && !Run(s, rest).busy && NoKillRefused(rest)
    decreases !s.jobs[j].phase.Cleaning?, s.jobs[j].worker.Spawning?, s.jobs[j].phase == Cleaning(AwaitSpawn)
  {
    if s.jobs[j].phase.Cleaning? && !s.jobs[j].phase.task.AwaitSpawn? {
      rest := FinishCleanup(s, j);
    } else {
      var e :=
        if !s.jobs[j].phase.Cleaning? then Interrupt(j)
        else if s.jobs[j].worker.Spawning? then SpawnEnds(j, true)
        else CleanupStarts(j, false);
      assert JobInv(s.jobs[j]);
      StepKeepsInv(s, e);
      rest := ReleaseActive(Step(s, e), j);
      RunFrom(s, e, rest);
      rest := [e] + rest;
    }
  }
}
