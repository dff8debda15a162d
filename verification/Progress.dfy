/** What the worker pool can still do when nobody submits: when a package can be given to a worker, when no
    thread can take a step, and what the moment at which the dispatcher first looks decides. */
module Progress {
  import opened WorkerPool
  import opened Wrappers

  /** The state after further steps; None if one of them cannot be taken. */
  function RunFrom(s: State, steps: seq<Step>): Option<State>
    decreases |steps|
  {
    if steps == [] then Some(s) else if Enabled(s, steps[0]) then RunFrom(Next(s, steps[0]), steps[1..]) else None
  }

  /** Nobody submits in these steps. */
  predicate Closed(steps: seq<Step>) { forall k :: 0 <= k < |steps| ==> !steps[k].Submit? }

  /** These further steps, without a submission, give a worker a package. */
  predicate Dispatches(s: State, steps: seq<Step>) {
    Closed(steps) && RunFrom(s, steps).Some? && |RunFrom(s, steps).value.dispatched| > |s.dispatched|
  }

  /** A package is queued, held by the dispatcher, or being queued. */
  predicate HasWork(s: State) {
    s.queue != [] || Held(s) != [] || exists t: nat :: t < |s.subs| && s.subs[t].Locked?
  }

  predicate Calling(s: State, t: nat) { t < |s.subs| && !s.subs[t].Idle? }

  predicate Busy(s: State, i: nat) {
    i < |s.workers| && (s.workers[i].pc.Woken? || s.workers[i].pc.Run? || s.workers[i].pc.Ran? || s.workers[i].pc.Done?)
  }

  /** Somebody is going to notify the dispatcher. */
  ghost predicate Noise(s: State) { (exists t :: Calling(s, t)) || (exists i :: Busy(s, i)) }

  /** The dispatcher comes to look for a package, or for a worker. */
  ghost predicate Attends(s: State) {
    match s.disp
    case Ended => false
    case Dozing => Noise(s)
    case Sleeping => Noise(s)
    case Check => s.load > 0 || Noise(s)
    case Leaving => s.raw.Some? || s.load > 0 || Noise(s)
    case Decide => s.raw.Some? || s.load > 0 || Noise(s)
    case Assigning(i) => i < |s.workers| || s.load > 0 || Noise(s)
    case _ => true
  }

  // ---------------------------------------------------------------------------------------------
  // Without work, workers or attention nothing is dispatched
  // ---------------------------------------------------------------------------------------------

  ghost predicate CanDispatch(s: State) { s.workers != [] && HasWork(s) && Attends(s) }

  lemma NoWorkStays(s: State, step: Step)
    requires Inv(s) && Enabled(s, step) && !step.Submit? && !HasWork(s)
    ensures !HasWork(Next(s, step)) && Next(s, step).dispatched == s.dispatched
  {
    var v := Next(s, step);
    match step
    case Sub(_) =>
    case Launch =>
    case Disp =>
    case Miss =>
    case Work(i) => WorkLeavesQueue(s, i);
  }

  lemma NoWorkerStays(s: State, step: Step)
    requires Inv(s) && Enabled(s, step) && s.workers == []
    ensures Next(s, step).workers == [] && Next(s, step).dispatched == s.dispatched
  {
  }

  /** A thread that is going to notify the dispatcher is where a submitter's or a worker's steps come from. */
  lemma StepsMakeNoise(s: State, step: Step)
    requires Enabled(s, step) && (step.Sub? || (step.Work? && Busy(s, step.i)))
    ensures Noise(s)
  {
    if step.Sub? { assert Calling(s, step.t); }
  }

  lemma QuietStays(s: State, step: Step)
    requires Inv(s) && Enabled(s, step) && !step.Submit? && !step.Sub? && !Noise(s)
    requires !Outside(s.disp) && (step.Disp? ==> !s.disp.Notifying?)
    ensures !Noise(Next(s, step)) && (!step.Disp? && !step.Miss? ==> Next(s, step).disp == s.disp)
  {
    var v := Next(s, step);
    forall t ensures !Calling(v, t) { assert !Calling(s, t); }
    forall i ensures !Busy(v, i) { assert !Busy(s, i); }
    match step
    case Launch =>
    case Miss =>
    case Disp => DispLeavesStart(s);
    case Work(j) =>
      assert !Busy(s, j);
      WorkLeavesQueue(s, j);
  }

  lemma LoadIsQueue(s: State)
    requires PumpOk(s) && !s.disp.Erased? && !Noise(s)
    ensures s.load == |s.queue|
  {
    if s.pump.Submitter? { assert !Calling(s, s.pump.t); }
  }

  lemma InattentionStays(s: State, step: Step)
    requires Inv(s) && Enabled(s, step) && !step.Submit? && !Attends(s)
    ensures !Attends(Next(s, step)) && Next(s, step).dispatched == s.dispatched
  {
    var v := Next(s, step);
    if s.disp.Ended? {
    } else {
      if step.Sub? { StepsMakeNoise(s, step); }
      QuietStays(s, step);
      LoadIsQueue(s);
      if step.Work? {
        WorkLeavesQueue(s, step.i);
        assert v.disp == s.disp && |v.workers| == |s.workers|;
      }
    }
  }

  lemma CannotStays(s: State, step: Step)
    requires Inv(s) && Enabled(s, step) && !step.Submit? && !CanDispatch(s)
    ensures !CanDispatch(Next(s, step)) && Next(s, step).dispatched == s.dispatched
  {
    if s.workers == [] {
      NoWorkerStays(s, step);
    } else if !HasWork(s) {
      NoWorkStays(s, step);
    } else {
      InattentionStays(s, step);
    }
  }

  lemma {:induction false} CannotDispatch(s: State, steps: seq<Step>)
    requires Inv(s) && !CanDispatch(s)
    ensures !Dispatches(s, steps)
    decreases |steps|
  {
    if steps == [] || !Closed(steps) || !Enabled(s, steps[0]) {
    } else {
      InvKept(s, steps[0]);
      CannotStays(s, steps[0]);
      assert Closed(steps[1..]);
      CannotDispatch(Next(s, steps[0]), steps[1..]);
    }
  }

  // ---------------------------------------------------------------------------------------------
  // With work, workers and attention a package can be dispatched
  // ---------------------------------------------------------------------------------------------

  lemma Prepended(s: State, step: Step, rest: seq<Step>)
    requires Enabled(s, step) && !step.Submit? && |Next(s, step).dispatched| >= |s.dispatched|
    requires Dispatches(Next(s, step), rest)
    ensures Dispatches(s, [step] + rest)
  {
    assert ([step] + rest)[1..] == rest;
  }

  lemma FillingDispatches(s: State) returns (steps: seq<Step>)
    requires Inv(s) && s.disp.Filling?
    ensures Dispatches(s, steps)
  {
    steps := [Disp];
    assert RunFrom(s, steps) == RunFrom(Next(s, Disp), []) by { assert steps[1..] == []; }
  }

  /** How many steps a running worker is from waiting. */
  function FromWaiting(pc: WorkPc): nat {
    match pc
    case Woken => 5
    case Run => 4
    case Ran => 3
    case Done => 2
    case Top => 1
    case _ => 0
  }

  /** The dispatcher is about to try a worker that waits. */
  lemma WaitingIsFilled(s: State, i: nat) returns (steps: seq<Step>)
    requires Inv(s) && s.disp == Assigning(i) && i < |s.workers| && s.workers[i].pc.Waiting?
    ensures Dispatches(s, steps)
  {
    assert FlagOk(s, i);
    var v, w := Next(s, Disp), Next(Next(s, Disp), Disp);
    InvKept(s, Disp);
    InvKept(v, Disp);
    steps := FillingDispatches(w);
    Prepended(v, Disp, steps);
    Prepended(s, Disp, [Disp] + steps);
    steps := [Disp] + ([Disp] + steps);
  }

  /** It can wait until the worker waits. */
  lemma {:induction false} AssigningDispatches(s: State, i: nat) returns (steps: seq<Step>)
    requires Inv(s) && s.disp == Assigning(i) && i < |s.workers|
    ensures Dispatches(s, steps)
    decreases FromWaiting(s.workers[i].pc)
  {
    if s.workers[i].pc.Waiting? {
      steps := WaitingIsFilled(s, i);
    } else {
      WorkLeavesQueue(s, i);
      InvKept(s, Work(i));
      steps := AssigningDispatches(Next(s, Work(i)), i);
      Prepended(s, Work(i), steps);
      steps := [Work(i)] + steps;
    }
  }

  lemma DecidingDispatches(s: State) returns (steps: seq<Step>)
    requires Inv(s) && s.workers != [] && s.disp.Decide? && s.raw.Some?
    ensures Dispatches(s, steps)
  {
    InvKept(s, Disp);
    steps := AssigningDispatches(Next(s, Disp), 0);
    Prepended(s, Disp, steps);
    steps := [Disp] + steps;
  }

  lemma LeavingDispatches(s: State) returns (steps: seq<Step>)
    requires Inv(s) && s.workers != [] && s.disp.Leaving? && s.raw.Some?
    ensures Dispatches(s, steps)
  {
    InvKept(s, Disp);
    steps := DecidingDispatches(Next(s, Disp));
    Prepended(s, Disp, steps);
    steps := [Disp] + steps;
  }

  lemma ErasedDispatches(s: State) returns (steps: seq<Step>)
    requires Inv(s) && s.workers != [] && s.disp.Erased?
    ensures Dispatches(s, steps)
  {
    InvKept(s, Disp);
    steps := LeavingDispatches(Next(s, Disp));
    Prepended(s, Disp, steps);
    steps := [Disp] + steps;
  }

  lemma InPumpDispatches(s: State) returns (steps: seq<Step>)
    requires Inv(s) && s.workers != [] && s.disp.InPump? && s.queue != []
    ensures Dispatches(s, steps)
  {
    InvKept(s, Disp);
    steps := ErasedDispatches(Next(s, Disp));
    Prepended(s, Disp, steps);
    steps := [Disp] + steps;
  }

  /** How many steps a submitter is from letting go of the pump. */
  function FromUnlocked(pc: SubPc): nat {
    match pc
    case Locked(_) => 3
    case Pushed => 2
    case Counted => 1
    case _ => 0
  }

  function SubsLeft(s: State): nat {
    if s.pump.Submitter? && s.pump.t < |s.subs| then FromUnlocked(s.subs[s.pump.t]) else 0
  }

  lemma WorkLasts(s: State, t: nat)
    requires Inv(s) && Enabled(s, Sub(t)) && HasWork(s)
    ensures HasWork(SubStep(s, t))
  {
    if s.subs[t].Locked? {
      assert SubStep(s, t).queue != [];
    } else if u: nat :| u < |s.subs| && s.subs[u].Locked? {
      assert SubStep(s, t).subs[u].Locked?;
    }
  }

  /** The dispatcher is awake: it looks for a package as soon as nobody holds the pump. */
  lemma {:induction false} ReadyDispatches(s: State) returns (steps: seq<Step>)
    requires Inv(s) && s.workers != [] && s.disp.Ready? && HasWork(s)
    ensures Dispatches(s, steps)
    decreases SubsLeft(s)
  {
    if s.raw.Some? {
      InvKept(s, Disp);
      steps := DecidingDispatches(Next(s, Disp));
      Prepended(s, Disp, steps);
      steps := [Disp] + steps;
    } else if s.pump.Submitter? {
      var t := s.pump.t;
      InvKept(s, Sub(t));
      WorkLasts(s, t);
      steps := ReadyDispatches(Next(s, Sub(t)));
      Prepended(s, Sub(t), steps);
      steps := [Sub(t)] + steps;
    } else {
      InvKept(s, Disp);
      steps := InPumpDispatches(Next(s, Disp));
      Prepended(s, Disp, steps);
      steps := [Disp] + steps;
    }
  }

  lemma WorkLastsWork(s: State, i: nat)
    requires Inv(s) && Enabled(s, Work(i)) && HasWork(s)
    ensures HasWork(WorkStep(s, i))
  {
    WorkLeavesQueue(s, i);
  }

  /** A worker on its way to waiting wakes the sleeping dispatcher. */
  lemma {:induction false} WorkerWakes(s: State, i: nat) returns (steps: seq<Step>)
    requires Inv(s) && s.disp.Sleeping? && HasWork(s) && Busy(s, i)
    ensures Dispatches(s, steps)
    decreases FromWaiting(s.workers[i].pc)
  {
    InvKept(s, Work(i));
    WorkLeavesQueue(s, i);
    WorkLastsWork(s, i);
    var v := Next(s, Work(i));
    if s.workers[i].pc.Done? {
      steps := ReadyDispatches(v);
    } else {
      steps := WorkerWakes(v, i);
    }
    Prepended(s, Work(i), steps);
    steps := [Work(i)] + steps;
  }

  /** So does a submitter. */
  lemma {:induction false} SubmitterWakes(s: State, t: nat) returns (steps: seq<Step>)
    requires Inv(s) && s.workers != [] && s.disp.Sleeping? && HasWork(s) && Calling(s, t)
    ensures Dispatches(s, steps)
    decreases FromUnlocked(s.subs[t])
  {
    InvKept(s, Sub(t));
    WorkLasts(s, t);
    var v := Next(s, Sub(t));
    if s.subs[t].Unlocked? {
      steps := ReadyDispatches(v);
    } else {
      steps := SubmitterWakes(v, t);
    }
    Prepended(s, Sub(t), steps);
    steps := [Sub(t)] + steps;
  }

  lemma SleepingDispatches(s: State) returns (steps: seq<Step>)
    requires Inv(s) && s.workers != [] && s.disp.Sleeping? && HasWork(s) && Noise(s)
    ensures Dispatches(s, steps)
  {
    if t :| Calling(s, t) {
      steps := SubmitterWakes(s, t);
    } else {
      var i :| Busy(s, i);
      steps := WorkerWakes(s, i);
    }
  }

  /** A step of the dispatcher outside the pump and away from the workers silences nobody. */
  lemma NoiseLasts(s: State)
    requires Enabled(s, Disp) && Noise(s) && (s.disp.Check? || s.disp.Dozing? || s.disp.Leaving? || s.disp.Decide? ||
      (s.disp.Assigning? && s.disp.worker >= |s.workers|))
    ensures Noise(DispStep(s))
  {
    var v := DispStep(s);
    if t :| Calling(s, t) {
      assert Calling(v, t);
    } else {
      var i :| Busy(s, i);
      assert Busy(v, i);
    }
  }

  lemma DozingDispatches(s: State) returns (steps: seq<Step>)
    requires Inv(s) && s.workers != [] && s.disp.Dozing? && HasWork(s) && Noise(s)
    ensures Dispatches(s, steps)
  {
    InvKept(s, Disp);
    NoiseLasts(s);
    steps := SleepingDispatches(Next(s, Disp));
    Prepended(s, Disp, steps);
    steps := [Disp] + steps;
  }

  lemma CheckDispatches(s: State) returns (steps: seq<Step>)
    requires Inv(s) && s.workers != [] && s.disp.Check? && HasWork(s) && (s.load > 0 || Noise(s))
    ensures Dispatches(s, steps)
  {
    InvKept(s, Disp);
    if s.load == 0 {
      NoiseLasts(s);
      steps := DozingDispatches(Next(s, Disp));
    } else {
      steps := ReadyDispatches(Next(s, Disp));
    }
    Prepended(s, Disp, steps);
    steps := [Disp] + steps;
  }

  /** A step that leads back to the top of the loop. */
  lemma ThenChecks(s: State) returns (steps: seq<Step>)
    requires Inv(s) && s.workers != [] && Enabled(s, Disp) && Next(s, Disp).disp.Check? && HasWork(Next(s, Disp))
    requires Next(s, Disp).load > 0 || Noise(Next(s, Disp))
    ensures Dispatches(s, steps)
  {
    InvKept(s, Disp);
    DispLeavesStart(s);
    steps := CheckDispatches(Next(s, Disp));
    Prepended(s, Disp, steps);
    steps := [Disp] + steps;
  }

  lemma PastLastDispatches(s: State) returns (steps: seq<Step>)
    requires Inv(s) && s.workers != [] && s.disp.Assigning? && s.disp.worker >= |s.workers|
    requires s.load > 0 || Noise(s)
    ensures Dispatches(s, steps)
  {
    if Noise(s) { NoiseLasts(s); }
    steps := ThenChecks(s);
  }

  lemma EmptyDecidingDispatches(s: State) returns (steps: seq<Step>)
    requires Inv(s) && s.workers != [] && s.disp.Decide? && s.raw.None? && HasWork(s)
    requires s.load > 0 || Noise(s)
    ensures Dispatches(s, steps)
  {
    if Noise(s) { NoiseLasts(s); }
    steps := ThenChecks(s);
  }

  lemma EmptyLeavingDispatches(s: State) returns (steps: seq<Step>)
    requires Inv(s) && s.workers != [] && s.disp.Leaving? && s.raw.None? && HasWork(s)
    requires s.load > 0 || Noise(s)
    ensures Dispatches(s, steps)
  {
    if Noise(s) { NoiseLasts(s); }
    InvKept(s, Disp);
    steps := EmptyDecidingDispatches(Next(s, Disp));
    Prepended(s, Disp, steps);
    steps := [Disp] + steps;
  }

  /** A worker that is found loaded has been woken. */
  lemma ProbingDispatches(s: State) returns (steps: seq<Step>)
    requires Inv(s) && s.disp.Probing?
    ensures Dispatches(s, steps)
  {
    var i, v := s.disp.worker, Next(s, Disp);
    InvKept(s, Disp);
    assert FlagOk(s, i);
    if !s.workers[i].loaded {
      steps := FillingDispatches(v);
    } else if i + 1 < |s.workers| {
      steps := AssigningDispatches(v, i + 1);
    } else {
      assert Busy(v, i);
      steps := PastLastDispatches(v);
    }
    Prepended(s, Disp, steps);
    steps := [Disp] + steps;
  }

  lemma NotifyingDispatches(s: State) returns (steps: seq<Step>)
    requires Inv(s) && s.disp.Notifying? && HasWork(s)
    ensures Dispatches(s, steps)
  {
    var i := s.disp.worker;
    assert FlagOk(s, i);
    assert Busy(Next(s, Disp), i);
    steps := ThenChecks(s);
  }

  lemma FlaggedDispatches(s: State) returns (steps: seq<Step>)
    requires Inv(s) && s.disp.Flagged? && HasWork(s)
    ensures Dispatches(s, steps)
  {
    InvKept(s, Disp);
    steps := NotifyingDispatches(Next(s, Disp));
    Prepended(s, Disp, steps);
    steps := [Disp] + steps;
  }

  lemma FilledDispatches(s: State) returns (steps: seq<Step>)
    requires Inv(s) && s.disp.Filled? && HasWork(s)
    ensures Dispatches(s, steps)
  {
    InvKept(s, Disp);
    steps := FlaggedDispatches(Next(s, Disp));
    Prepended(s, Disp, steps);
    steps := [Disp] + steps;
  }

  /** What is queued shows in the load, unless a submitter is still at it. */
  lemma WorkShows(s: State)
    requires PumpOk(s) && s.raw.None? && !s.disp.Erased? && HasWork(s)
    ensures s.load > 0 || Noise(s)
  {
    if !Noise(s) {
      LoadIsQueue(s);
      if t: nat :| t < |s.subs| && s.subs[t].Locked? { assert !Calling(s, t); }
    }
  }

  lemma LaunchKeepsWork(s: State)
    requires Enabled(s, Launch) && HasWork(s) && s.raw.None?
    ensures HasWork(LaunchStep(s))
  {
  }

  lemma EntryDispatches(s: State) returns (steps: seq<Step>)
    requires Inv(s) && s.workers != [] && s.disp.Entry? && HasWork(s)
    ensures Dispatches(s, steps)
    decreases s.launch.Marking?
  {
    if s.launch.Launched? {
      WorkShows(s);
      if Noise(s) { EntryKeepsNoise(s); }
      steps := ThenChecks(s);
    } else {
      InvKept(s, Launch);
      LaunchKeepsWork(s);
      steps := EntryDispatches(Next(s, Launch));
      Prepended(s, Launch, steps);
      steps := [Launch] + steps;
    }
  }

  lemma EntryKeepsNoise(s: State)
    requires Enabled(s, Disp) && s.disp.Entry? && Noise(s)
    ensures Noise(DispStep(s))
  {
    var v := DispStep(s);
    if t :| Calling(s, t) {
      assert Calling(v, t);
    } else {
      var i :| Busy(s, i);
      assert Busy(v, i);
    }
  }

  /** How many steps a started worker is from running. */
  function FromRunning(pc: WorkPc): nat {
    match pc
    case Unborn => 4
    case Unstarted => 3
    case Entered => 2
    case Cleared => 1
    case _ => 0
  }

  lemma {:induction false} AbsentDispatches(s: State) returns (steps: seq<Step>)
    requires Inv(s) && s.workers != [] && s.disp.Absent? && HasWork(s)
    ensures Dispatches(s, steps)
    decreases |s.workers| - Seen(s), if s.launch.Creating? then 5 else FromRunning(s.workers[Seen(s)].pc)
  {
    var i := Seen(s);
    if s.launch.Creating? || Running(s.workers[i].pc) {
      InvKept(s, Launch);
      LaunchKeepsWork(s);
      var v := Next(s, Launch);
      if v.disp.Entry? { steps := EntryDispatches(v); } else { steps := AbsentDispatches(v); }
      Prepended(s, Launch, steps);
      steps := [Launch] + steps;
    } else {
      InvKept(s, Work(i));
      WorkLeavesQueue(s, i);
      WorkLastsWork(s, i);
      steps := AbsentDispatches(Next(s, Work(i)));
      Prepended(s, Work(i), steps);
      steps := [Work(i)] + steps;
    }
  }

  lemma AttendedDispatches(s: State) returns (steps: seq<Step>)
    requires Inv(s) && CanDispatch(s)
    ensures Dispatches(s, steps)
  {
    match s.disp
    case Absent => steps := AbsentDispatches(s);
    case Entry => steps := EntryDispatches(s);
    case Check => steps := CheckDispatches(s);
    case Dozing => steps := DozingDispatches(s);
    case Sleeping => steps := SleepingDispatches(s);
    case Ready => steps := ReadyDispatches(s);
    case InPump => steps := InPumpDispatches(s);
    case Erased => steps := ErasedDispatches(s);
    case Leaving => if s.raw.Some? { steps := LeavingDispatches(s); } else { steps := EmptyLeavingDispatches(s); }
    case Decide => if s.raw.Some? { steps := DecidingDispatches(s); } else { steps := EmptyDecidingDispatches(s); }
    case Assigning(i) =>
      if i < |s.workers| { steps := AssigningDispatches(s, i); } else { steps := PastLastDispatches(s); }
    case Probing(_) => steps := ProbingDispatches(s);
    case Filling(_) => steps := FillingDispatches(s);
    case Filled(_) => steps := FilledDispatches(s);
    case Flagged(_) => steps := FlaggedDispatches(s);
    case Notifying(_) => steps := NotifyingDispatches(s);
  }

  /** In every reachable state, some steps without a submission give a worker another package exactly when
      there are workers, there is work, and the dispatcher comes to look for it. */
  lemma DispatchesExactlyWhen(submitters: nat, size: nat, run: seq<Step>)
    requires After(submitters, size, run).Some?
    ensures var s := After(submitters, size, run).value;
      (exists steps :: Dispatches(s, steps)) <==> s.workers != [] && HasWork(s) && Attends(s)
  {
    InvThroughout(submitters, size, run);
    var s := After(submitters, size, run).value;
    if CanDispatch(s) {
      var steps := AttendedDispatches(s);
    } else {
      forall steps ensures !Dispatches(s, steps) {
        CannotDispatch(s, steps);
      }
    }
  }

  // ---------------------------------------------------------------------------------------------
  // When no thread can take a step
  // ---------------------------------------------------------------------------------------------

  /** Only a submission is possible. */
  predicate Stuck(s: State) {
    && s.launch.Launched? && (s.disp.Sleeping? || s.disp.Ended?)
    && (forall t: nat :: t < |s.subs| ==> s.subs[t].Idle?)
    && (forall i: nat :: i < |s.workers| ==> s.workers[i].pc.Waiting?)
  }

  /** As long as the queue is being started, some thread of it can take a step. */
  lemma StartingGoesOn(s: State) returns (step: Step)
    requires Inv(s) && !s.launch.Launched?
    ensures Enabled(s, step) && !step.Submit?
  {
    step := if s.launch.Spinning? && !Running(s.workers[s.launch.worker].pc) then Work(s.launch.worker) else Launch;
  }

  lemma WorkerGoesOn(s: State, i: nat) returns (step: Step)
    requires Inv(s) && s.launch.Launched? && i < |s.workers| && !s.workers[i].pc.Waiting? && !DispHolds(s.disp)
    ensures Enabled(s, step) && !step.Submit?
  {
    step := Work(i);
  }

  lemma SomethingGoesOn(s: State) returns (step: Step)
    requires Inv(s) && !Stuck(s)
    ensures Enabled(s, step) && !step.Submit?
  {
    if !s.launch.Launched? {
      step := StartingGoesOn(s);
    } else if t: nat :| t < |s.subs| && !s.subs[t].Idle? {
      step := Sub(t);
    } else if s.disp.Sleeping? || s.disp.Ended? {
      var i: nat :| i < |s.workers| && !s.workers[i].pc.Waiting?;
      step := WorkerGoesOn(s, i);
    } else {
      step := Disp;
    }
  }

  lemma OnlySubmits(s: State, step: Step)
    requires Stuck(s)
    ensures Enabled(s, step) ==> step.Submit?
  {
  }

  lemma StuckIsFinished(s: State)
    requires Inv(s) && Stuck(s)
    ensures Within(s.dispatched, s.finished) && (Within(s.submitted, s.finished) <==> s.queue == [] && s.raw == None)
  {
    forall i: nat | i < |s.workers| ensures Slot(s, i) == None { assert FlagOk(s, i); }
    var n := |s.dispatched|;
    if n < |s.submitted| {
      assert s.submitted[n] !in s.dispatched by {
        assert forall d: nat :: d < n ==> s.submitted[d] == s.dispatched[d];
      }
      assert s.submitted[n] !in s.finished;
    } else {
      assert s.submitted == s.dispatched;
    }
  }

  /** No thread can take a step exactly when the start is over, the dispatcher sleeps or has ended, no
      submitter is at work and all workers wait. Then all that has been dispatched is finished, so
      everything is, unless a package is queued or left with the dispatcher. */
  lemma StuckExactlyWhen(submitters: nat, size: nat, run: seq<Step>)
    requires After(submitters, size, run).Some?
    ensures var s := After(submitters, size, run).value;
      && ((forall step :: Enabled(s, step) ==> step.Submit?) <==> Stuck(s))
      && (Stuck(s) ==> Within(s.dispatched, s.finished))
      && (Stuck(s) ==> (Within(s.submitted, s.finished) <==> s.queue == [] && s.raw == None))
  {
    InvThroughout(submitters, size, run);
    var s := After(submitters, size, run).value;
    if Stuck(s) {
      StuckIsFinished(s);
      forall step ensures Enabled(s, step) ==> step.Submit? { OnlySubmits(s, step); }
    } else {
      var step := SomethingGoesOn(s);
    }
  }

  // ---------------------------------------------------------------------------------------------
  // A dispatcher that looks too early
  // ---------------------------------------------------------------------------------------------

  predicate Ends(s: State, steps: seq<Step>) { RunFrom(s, steps).Some? && RunFrom(s, steps).value.disp.Ended? }

  lemma {:induction false} LoopIsKept(s: State, steps: seq<Step>)
    requires Inv(s) && s.launch.Launched? && !s.disp.Ended?
    ensures !Ends(s, steps)
    decreases |steps|
  {
    if steps == [] || !Enabled(s, steps[0]) {
    } else {
      InvKept(s, steps[0]);
      LoopGoesOn(s, steps[0]);
      LoopIsKept(Next(s, steps[0]), steps[1..]);
    }
  }

  lemma LoopGoesOn(s: State, step: Step)
    requires Inv(s) && s.launch.Launched? && !s.disp.Ended? && Enabled(s, step)
    ensures Next(s, step).launch.Launched? && !Next(s, step).disp.Ended?
  {
    match step
    case Submit(_, _) =>
    case Sub(_) =>
    case Disp => DispLeavesStart(s);
    case Miss =>
    case Work(i) =>
  }

  lemma PrependedEnd(s: State, step: Step, rest: seq<Step>)
    requires Enabled(s, step) && Ends(Next(s, step), rest)
    ensures Ends(s, [step] + rest)
  {
    assert ([step] + rest)[1..] == rest;
  }

  lemma EntryEnds(s: State) returns (steps: seq<Step>)
    requires s.disp.Entry? && !s.launch.Launched?
    ensures Ends(s, steps)
  {
    steps := [Disp];
    assert RunFrom(s, steps) == RunFrom(Next(s, Disp), []) by { assert steps[1..] == []; }
  }

  lemma {:induction false} StartingEnds(s: State) returns (steps: seq<Step>)
    requires Inv(s) && !s.launch.Launched? && !s.disp.Ended?
    ensures Ends(s, steps)
    decreases |s.workers| - Seen(s), s.disp.Absent?,
              if s.launch.Spinning? then FromRunning(s.workers[Seen(s)].pc) else 5
  {
    if s.disp.Entry? {
      steps := EntryEnds(s);
    } else if s.launch.Creating? || Running(s.workers[Seen(s)].pc) {
      InvKept(s, Launch);
      steps := StartingEnds(Next(s, Launch));
      PrependedEnd(s, Launch, steps);
      steps := [Launch] + steps;
    } else {
      var i := Seen(s);
      InvKept(s, Work(i));
      WorkLeavesQueue(s, i);
      steps := StartingEnds(Next(s, Work(i)));
      PrependedEnd(s, Work(i), steps);
      steps := [Work(i)] + steps;
    }
  }

  /** The dispatcher can end as long as `queue::start` has not set its flag, and has ended or never will
      afterwards. */
  lemma EndsExactlyWhen(submitters: nat, size: nat, run: seq<Step>)
    requires After(submitters, size, run).Some?
    ensures var s := After(submitters, size, run).value;
      (exists steps :: Ends(s, steps)) <==> s.disp.Ended? || !s.launch.Launched?
  {
    InvThroughout(submitters, size, run);
    var s := After(submitters, size, run).value;
    if s.disp.Ended? {
      assert Ends(s, []);
    } else if !s.launch.Launched? {
      var steps := StartingEnds(s);
    } else {
      forall steps ensures !Ends(s, steps) {
        LoopIsKept(s, steps);
      }
    }
  }

  /** A dispatcher that has ended has given nothing to a worker, and never will, whatever is submitted. */
  lemma EndedForGood(submitters: nat, size: nat, run: seq<Step>, more: seq<Step>)
    requires After(submitters, size, run).Some? && After(submitters, size, run).value.disp.Ended?
    requires RunFrom(After(submitters, size, run).value, more).Some?
    ensures var v := RunFrom(After(submitters, size, run).value, more).value;
      v.disp.Ended? && v.dispatched == [] && v.ran == [] && v.finished == []
  {
    InvThroughout(submitters, size, run);
    EndedStays(After(submitters, size, run).value, more);
  }

  lemma WithinSome(ps: seq<Pkg>, qs: seq<Pkg>)
    requires Within(ps, qs) && ps != []
    ensures qs != []
  {
    assert ps[0] in qs;
  }

  lemma {:induction false} EndedStays(s: State, steps: seq<Step>)
    requires Inv(s) && s.disp.Ended? && RunFrom(s, steps).Some?
    ensures var v := RunFrom(s, steps).value; v.disp.Ended? && v.dispatched == [] && v.ran == [] && v.finished == []
    decreases |steps|
  {
    if steps == [] {
      if s.ran != [] { WithinSome(s.ran, s.dispatched); }
      if s.finished != [] { WithinSome(s.finished, s.dispatched); }
    } else {
      InvKept(s, steps[0]);
      EndedStays(Next(s, steps[0]), steps[1..]);
    }
  }

  // ---------------------------------------------------------------------------------------------
  // Runs of one submitter and one worker that leave a package behind
  // ---------------------------------------------------------------------------------------------

  lemma Extended(run: seq<Step>, s: State, step: Step) returns (more: seq<Step>, v: State)
    requires After(1, 1, run) == Some(s) && Enabled(s, step)
    ensures v == Next(s, step) && After(1, 1, more) == Some(v)
  {
    more, v := run + [step], Next(s, step);
    assert more[..|more| - 1] == run;
  }

  /** The queue has been started, and the worker is about to wait. */
  lemma Opened() returns (run: seq<Step>, s: State)
    ensures After(1, 1, run) == Some(s)
    ensures s == Start(1, 1).(launch := Launched, disp := Check, workers := [Worker(Top, false, None, ByWorker)])
  {
    run, s := Extended([], Start(1, 1), Launch);
    run, s := Extended(run, s, Work(0));
    run, s := Extended(run, s, Work(0));
    run, s := Extended(run, s, Work(0));
    assert s.workers == [Worker(Top, false, None, ByWorker)];
    run, s := Extended(run, s, Launch);
    run, s := Extended(run, s, Launch);
    run, s := Extended(run, s, Launch);
    run, s := Extended(run, s, Disp);
  }

  /** A package is queued. */
  lemma Queued(run0: seq<Step>, s0: State, p: Pkg) returns (run: seq<Step>, s: State)
    requires After(1, 1, run0) == Some(s0) && s0.subs == [Idle] && s0.pump == Nobody && p !in s0.submitted
    requires !s0.disp.Sleeping?
    ensures After(1, 1, run) == Some(s)
    ensures s == s0.(queue := s0.queue + [p], load := s0.load + 1, submitted := s0.submitted + [p])
  {
    run, s := Extended(run0, s0, Submit(0, p));
    run, s := Extended(run, s, Sub(0));
    run, s := Extended(run, s, Sub(0));
    run, s := Extended(run, s, Sub(0));
    run, s := Extended(run, s, Sub(0));
    assert s.subs == [Idle];
  }

  /** The dispatcher takes it from the pump. */
  lemma Taken(run0: seq<Step>, s0: State) returns (run: seq<Step>, s: State)
    requires After(1, 1, run0) == Some(s0) && s0.disp == Check && s0.raw == None && s0.pump == Nobody
    requires s0.queue != [] && s0.load > 0
    ensures After(1, 1, run) == Some(s)
    ensures s == s0.(queue := s0.queue[1..], raw := Some(s0.queue[0]), pump := Dispatcher, disp := Erased)
  {
    run, s := Extended(run0, s0, Disp);
    run, s := Extended(run, s, Disp);
    run, s := Extended(run, s, Disp);
  }

  lemma Fetched(run0: seq<Step>, s0: State) returns (run: seq<Step>, s: State)
    requires After(1, 1, run0) == Some(s0) && s0.disp == Check && s0.raw == None && s0.pump == Nobody
    requires s0.queue != [] && s0.load > 0
    ensures After(1, 1, run) == Some(s)
    ensures s == s0.(queue := s0.queue[1..], load := s0.load - 1, raw := Some(s0.queue[0]), disp := Assigning(0))
  {
    run, s := Taken(run0, s0);
    run, s := Extended(run, s, Disp);
    run, s := Extended(run, s, Disp);
    run, s := Extended(run, s, Disp);
  }

  /** The worker waits; the dispatcher has read a load of zero, a package is queued before it waits, and it
      does not hear of it. */
  lemma LeftInQueue() returns (run: seq<Step>, s: State)
    ensures After(1, 1, run) == Some(s)
    ensures Stuck(s) && s.submitted == [7] && s.queue == [7] && s.raw == None
  {
    run, s := Opened();
    run, s := Extended(run, s, Work(0));
    run, s := Extended(run, s, Disp);
    assert s.subs == [Idle];
    run, s := Queued(run, s, 7);
    run, s := Extended(run, s, Disp);
    assert s.subs == [Idle] && s.workers[0].pc.Waiting?;
  }

  /** The dispatcher finds the only worker's mutex taken, for the worker is about to wait, and goes to sleep
      with the package in its hand. No notification is missed. */
  lemma LeftInHand() returns (run: seq<Step>, s: State)
    ensures After(1, 1, run) == Some(s)
    ensures Stuck(s) && s.submitted == [7] && s.queue == [] && s.raw == Some(7)
  {
    run, s := Opened();
    assert s.subs == [Idle];
    run, s := Queued(run, s, 7);
    run, s := Fetched(run, s);
    run, s := Extended(run, s, Disp);
    assert s.disp == Assigning(1);
    run, s := Extended(run, s, Disp);
    run, s := Extended(run, s, Disp);
    run, s := Extended(run, s, Disp);
    run, s := Extended(run, s, Work(0));
    assert s.subs == [Idle] && s.workers[0].pc.Waiting?;
  }
}
