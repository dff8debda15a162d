/** The worker pool: submitters, the thread that starts the queue, one dispatcher and any number of workers
    as interleaved steps. Each step is one access to shared memory, one lock operation, one notification or
    the creation of a thread. Memory is sequentially consistent, waits do not wake without a notification,
    and nobody stops the pool. */
module WorkerPool {
  import opened Seqs
  import opened Wrappers

  type Pkg = nat

  // ---------------------------------------------------------------------------------------------
  // State
  // ---------------------------------------------------------------------------------------------

  /** A submitter inside `pump::add_package`, and before its `notify_all`. */
  datatype SubPc = Idle | Locked(p: Pkg) | Pushed | Counted | Unlocked

  /** The thread inside `queue::start` and `pool::start`. */
  datatype LaunchPc =
    | Creating(worker: nat)     // about to create the thread of that worker, or the dispatcher's if there is none
    | Spinning(worker: nat)     // until it sees m_running of that worker
    | Marking                   // about to set m_running of the queue
    | Launched

  /** The dispatcher inside `queue::cycle`, `next_package` and `assign`; `worker` is the one it looks at. */
  datatype DispPc =
    | Absent                    // its thread has not been created
    | Entry                     // about to test m_running of the queue for the first time
    | Ended                     // has found it false
    | Check                     // in the loop, which nobody ends, about to read the load
    | Dozing                    // has read a load of zero, about to wait
    | Sleeping                  // in the wait of the cycle condition
    | Ready                     // awake
    | InPump                    // holds the pump's mutex
    | Erased                    // has taken a package, not counted it yet
    | Leaving                   // about to unlock the pump
    | Decide                    // about to test raw_pkg
    | Assigning(worker: nat)    // about to try the worker's mutex
    | Probing(worker: nat)      // holds it, about to test m_loaded
    | Filling(worker: nat)      // found it free
    | Filled(worker: nat)       // m_current is set
    | Flagged(worker: nat)      // m_loaded is set
    | Notifying(worker: nat)    // has unlocked, about to notify and forget raw_pkg

  /** A worker inside `process`. */
  datatype WorkPc =
    | Unborn                    // its thread has not been created
    | Unstarted                 // wants its mutex
    | Entered                   // holds it, about to clear m_loaded
    | Cleared                   // about to set m_running
    | Top                       // about to wait
    | Waiting
    | Woken                     // notified, wants its mutex back
    | Run
    | Ran
    | Done                      // has cleared m_loaded, about to notify the dispatcher

  datatype Holder = Free | ByWorker | ByDispatcher

  datatype Worker = Worker(pc: WorkPc, loaded: bool, current: Option<Pkg>, holder: Holder)

  datatype PumpHolder = Nobody | Submitter(t: nat) | Dispatcher

  /** The last five fields are histories: packages in the order they were queued, and in the order they
      were given to workers, with the worker; the ones run, and the ones finished. */
  datatype State = State(
    queue: seq<Pkg>, load: int, pump: PumpHolder,
    subs: seq<SubPc>, launch: LaunchPc, disp: DispPc, raw: Option<Pkg>, workers: seq<Worker>,
    submitted: seq<Pkg>, dispatched: seq<Pkg>, to: seq<nat>, ran: seq<Pkg>, finished: seq<Pkg>)

  function Fresh(): Worker { Worker(Unborn, false, None, Free) }

  function Start(submitters: nat, size: nat): State {
    State([], 0, Nobody, seq(submitters, _ => Idle), Creating(0), Absent, None, seq(size, _ => Fresh()),
          [], [], [], [], [])
  }

  // ---------------------------------------------------------------------------------------------
  // Steps
  // ---------------------------------------------------------------------------------------------

  /** `Miss` is a `try_lock` that fails although the mutex may be free. */
  datatype Step = Submit(t: nat, p: Pkg) | Sub(t: nat) | Launch | Disp | Miss | Work(i: nat)

  /** The worker has set its m_running. */
  predicate Running(pc: WorkPc) { !pc.Unborn? && !pc.Unstarted? && !pc.Entered? && !pc.Cleared? }

  predicate Enabled(s: State, step: Step) {
    match step
    case Submit(t, p) => t < |s.subs| && s.subs[t].Idle? && s.pump == Nobody && p !in s.submitted
    case Sub(t) => t < |s.subs| && !s.subs[t].Idle?
    case Launch =>
      && !s.launch.Launched?
      && (s.launch.Spinning? ==> s.launch.worker < |s.workers| && Running(s.workers[s.launch.worker].pc))
    case Disp =>
      && !s.disp.Absent? && !s.disp.Ended? && !s.disp.Sleeping?
      && (s.disp.Ready? && s.raw.None? ==> s.pump == Nobody)
      && (s.disp.Probing? || s.disp.Filling? || s.disp.Filled? || s.disp.Flagged? || s.disp.Notifying? ==>
            s.disp.worker < |s.workers|)
    case Miss => s.disp.Assigning? && s.disp.worker < |s.workers|
    case Work(i) =>
      && i < |s.workers| && !s.workers[i].pc.Waiting? && !s.workers[i].pc.Unborn?
      && (s.workers[i].pc.Unstarted? || s.workers[i].pc.Woken? ==> s.workers[i].holder == Free)
  }

  /** `notify_all` on the cycle condition. */
  function Awake(d: DispPc): DispPc { if d.Sleeping? then Ready else d }

  function SubStep(s: State, t: nat): State
    requires t < |s.subs|
  {
    match s.subs[t]
    case Idle => s
    case Locked(p) => s.(queue := s.queue + [p], submitted := s.submitted + [p], subs := s.subs[t := Pushed])
    case Pushed => s.(load := s.load + 1, subs := s.subs[t := Counted])
    case Counted => s.(pump := Nobody, subs := s.subs[t := Unlocked])
    case Unlocked => s.(disp := Awake(s.disp), subs := s.subs[t := Idle])
  }

  function LaunchStep(s: State): State
    requires Enabled(s, Launch)
  {
    match s.launch
    case Creating(i) =>
      if i < |s.workers| then
        s.(workers := s.workers[i := s.workers[i].(pc := Unstarted)], launch := Spinning(i))
      else s.(disp := Entry, launch := Marking)
    case Spinning(i) => s.(launch := Creating(i + 1))
    case Marking => s.(launch := Launched)
  }

  function DispStep(s: State): State
    requires Enabled(s, Disp)
  {
    match s.disp
    case Absent => s
    case Entry => s.(disp := if s.launch.Launched? then Check else Ended)
    case Ended => s
    case Check => s.(disp := if s.load == 0 then Dozing else Ready)
    case Dozing => s.(disp := Sleeping)
    case Sleeping => s
    case Ready => if s.raw.None? then s.(pump := Dispatcher, disp := InPump) else s.(disp := Decide)
    case InPump =>
      if s.queue == [] then s.(disp := Leaving)
      else s.(raw := Some(s.queue[0]), queue := s.queue[1..], disp := Erased)
    case Erased => s.(load := s.load - 1, disp := Leaving)
    case Leaving => s.(pump := Nobody, disp := Decide)
    case Decide => s.(disp := if s.raw.None? then Check else Assigning(0))
    case Assigning(i) =>
      if i >= |s.workers| then s.(disp := Check)
      else if s.workers[i].holder == Free then
        s.(workers := s.workers[i := s.workers[i].(holder := ByDispatcher)], disp := Probing(i))
      else s.(disp := Assigning(i + 1))
    case Probing(i) =>
      if s.workers[i].loaded then s.(workers := s.workers[i := s.workers[i].(holder := Free)], disp := Assigning(i + 1))
      else s.(disp := Filling(i))
    case Filling(i) =>
      s.(workers := s.workers[i := s.workers[i].(current := s.raw)], disp := Filled(i),
         dispatched := if s.raw.Some? then s.dispatched + [s.raw.value] else s.dispatched,
         to := if s.raw.Some? then s.to + [i] else s.to)
    case Filled(i) => s.(workers := s.workers[i := s.workers[i].(loaded := true)], disp := Flagged(i))
    case Flagged(i) => s.(workers := s.workers[i := s.workers[i].(holder := Free)], disp := Notifying(i))
    case Notifying(i) =>
      var w := s.workers[i];
      s.(workers := s.workers[i := if w.pc.Waiting? then w.(pc := Woken) else w], raw := None, disp := Check)
  }

  function WorkStep(s: State, i: nat): State
    requires Enabled(s, Work(i))
  {
    var w := s.workers[i];
    match w.pc
    case Unborn => s
    case Unstarted => s.(workers := s.workers[i := w.(pc := Entered, holder := ByWorker)])
    case Entered => s.(workers := s.workers[i := w.(pc := Cleared, loaded := false)])
    case Cleared => s.(workers := s.workers[i := w.(pc := Top)])
    case Top => s.(workers := s.workers[i := w.(pc := Waiting, holder := Free)])
    case Waiting => s
    case Woken => s.(workers := s.workers[i := w.(pc := Run, holder := ByWorker)])
    case Run =>
      s.(workers := s.workers[i := w.(pc := Ran)], ran := if w.current.Some? then s.ran + [w.current.value] else s.ran)
    case Ran =>
      s.(workers := s.workers[i := w.(pc := Done, loaded := false)],
         finished := if w.current.Some? then s.finished + [w.current.value] else s.finished)
    case Done => s.(workers := s.workers[i := w.(pc := Top)], disp := Awake(s.disp))
  }

  function Next(s: State, step: Step): State
    requires Enabled(s, step)
  {
    match step
    case Submit(t, p) => s.(pump := Submitter(t), subs := s.subs[t := Locked(p)])
    case Sub(t) => SubStep(s, t)
    case Launch => LaunchStep(s)
    case Disp => DispStep(s)
    case Miss => s.(disp := Assigning(s.disp.worker + 1))
    case Work(i) => WorkStep(s, i)
  }

  // ---------------------------------------------------------------------------------------------
  // Invariants
  // ---------------------------------------------------------------------------------------------

  predicate Within(ps: seq<Pkg>, qs: seq<Pkg>) { forall i: nat :: i < |ps| ==> ps[i] in qs }

  predicate SubHolds(pc: SubPc) { pc.Locked? || pc.Pushed? || pc.Counted? }

  predicate DispInPump(d: DispPc) { d.InPump? || d.Erased? || d.Leaving? }

  /** The dispatcher holds the mutex of the worker it looks at. */
  predicate DispHolds(d: DispPc) { d.Probing? || d.Filling? || d.Filled? || d.Flagged? }

  /** The dispatcher has handed raw_pkg over, but not forgotten it. */
  predicate Handed(d: DispPc) { d.Filled? || d.Flagged? || d.Notifying? }

  predicate WorkerHolds(pc: WorkPc) { pc.Entered? || pc.Cleared? || pc.Top? || pc.Run? || pc.Ran? || pc.Done? }

  /** The dispatcher is not in its loop. */
  predicate Outside(d: DispPc) { d.Absent? || d.Entry? || d.Ended? }

  /** How many workers have been seen running. */
  function Seen(s: State): nat {
    match s.launch
    case Creating(i) => i
    case Spinning(i) => i
    case Marking => |s.workers|
    case Launched => |s.workers|
  }

  /** Workers are started one by one, and the dispatcher only when all of them run. */
  predicate LaunchOk(s: State) {
    && Seen(s) <= |s.workers| && (s.launch.Spinning? ==> Seen(s) < |s.workers| && !s.workers[Seen(s)].pc.Unborn?)
    && (forall i: nat :: i < Seen(s) ==> Running(s.workers[i].pc))
    && (forall i: nat :: Seen(s) < i < |s.workers| ==> s.workers[i].pc.Unborn?)
    && (s.launch.Creating? && Seen(s) < |s.workers| ==> s.workers[Seen(s)].pc.Unborn?)
    && (s.disp.Absent? <==> s.launch.Creating? || s.launch.Spinning?)
    && (!s.launch.Launched? ==> Outside(s.disp))
    && (Outside(s.disp) ==> s.dispatched == [])
  }

  /** The pump's mutex excludes, and its load is off by one only while somebody holds it. */
  predicate PumpOk(s: State) {
    && (forall t: nat :: t < |s.subs| ==> (SubHolds(s.subs[t]) <==> s.pump == Submitter(t)))
    && (s.pump.Submitter? ==> s.pump.t < |s.subs|)
    && (DispInPump(s.disp) <==> s.pump == Dispatcher)
    && s.load == |s.queue| + Owed(s)
    && (forall t: nat :: t < |s.subs| && s.subs[t].Locked? ==> s.subs[t].p !in s.submitted)
  }

  function Owed(s: State): int {
    if s.pump.Submitter? && s.pump.t < |s.subs| && s.subs[s.pump.t].Pushed? then -1
    else if s.disp.Erased? then 1
    else 0
  }

  predicate RawOk(s: State) {
    && (Outside(s.disp) || s.disp.InPump? ==> s.raw.None?)
    && (s.disp.Erased? || s.disp.Assigning? || DispHolds(s.disp) || s.disp.Notifying? ==> s.raw.Some?)
  }

  /** The package the dispatcher still has to give away. */
  function Held(s: State): seq<Pkg> { if s.raw.Some? && !Handed(s.disp) then [s.raw.value] else [] }

  /** Packages leave in the order they came. */
  predicate FifoOk(s: State) {
    && s.submitted == s.dispatched + Held(s) + s.queue
    && Distinct(s.submitted)
    && |s.to| == |s.dispatched|
  }

  predicate MutexOk(s: State) {
    && (DispHolds(s.disp) || s.disp.Notifying? ==> s.disp.worker < |s.workers|)
    && forall i: nat :: i < |s.workers| ==>
      && (s.workers[i].holder.ByDispatcher? <==> DispHolds(s.disp) && s.disp.worker == i)
      && (s.workers[i].holder.ByWorker? <==> WorkerHolds(s.workers[i].pc))
  }

  /** What the flag of worker `i` says: a worker that waits with a package is about to be notified. */
  predicate FlagOk(s: State, i: nat)
    requires i < |s.workers|
  {
    var w := s.workers[i];
    && (w.loaded ==> w.current.Some?)
    && (w.pc.Woken? || w.pc.Run? || w.pc.Ran? ==> w.loaded)
    && (!Running(w.pc) || w.pc.Top? || w.pc.Done? ==> !w.loaded)
    && (w.pc.Waiting? && w.loaded ==> s.disp == Flagged(i) || s.disp == Notifying(i))
    && (s.disp == Filling(i) || s.disp == Filled(i) ==> !w.loaded)
    && (s.disp == Filled(i) ==> w.current == s.raw)
    && (s.disp == Flagged(i) || s.disp == Notifying(i) ==> w.loaded && w.pc.Waiting?)
  }

  predicate FlagsOk(s: State) { forall i: nat :: i < |s.workers| ==> FlagOk(s, i) }

  /** The package that worker `i` has been given and has not finished. */
  function Slot(s: State, i: nat): Option<Pkg>
    requires i < |s.workers|
  {
    if s.workers[i].loaded || s.disp == Filled(i) then s.workers[i].current else None
  }

  /** Each dispatched package is finished or in the slot of the worker it went to, and nowhere else. */
  predicate PlacesOk(s: State) {
    && |s.to| == |s.dispatched|
    && (forall k: nat :: k < |s.dispatched| ==>
          s.to[k] < |s.workers| && (s.dispatched[k] in s.finished || Slot(s, s.to[k]) == Some(s.dispatched[k])))
    && (forall i: nat :: i < |s.workers| && Slot(s, i).Some? ==>
          Slot(s, i).value in s.dispatched && Slot(s, i).value !in s.finished)
    && (forall i: nat, j: nat ::
          i < |s.workers| && j < |s.workers| && Slot(s, i).Some? && Slot(s, i) == Slot(s, j) ==> i == j)
    && Distinct(s.finished) && Within(s.finished, s.dispatched)
  }

  /** Nothing has been run twice, and a package in a slot has been run only if its worker is about to say so. */
  predicate RunsOk(s: State) {
    && Distinct(s.ran) && Within(s.ran, s.dispatched) && Within(s.finished, s.ran)
    && (forall i: nat :: i < |s.workers| && Slot(s, i).Some? ==> (Slot(s, i).value in s.ran <==> s.workers[i].pc.Ran?))
  }

  predicate Inv(s: State) {
    LaunchOk(s) && PumpOk(s) && RawOk(s) && FifoOk(s) && MutexOk(s) && FlagsOk(s) && PlacesOk(s) && RunsOk(s)
  }

  // ---------------------------------------------------------------------------------------------
  // Every step keeps the invariants
  // ---------------------------------------------------------------------------------------------

  lemma StartQueueOk(submitters: nat, size: nat)
    ensures var s := Start(submitters, size); LaunchOk(s) && PumpOk(s) && RawOk(s) && FifoOk(s)
  {
  }

  lemma StartOk(submitters: nat, size: nat)
    ensures Inv(Start(submitters, size))
  {
    StartQueueOk(submitters, size);
    StartWorkersOk(submitters, size);
  }

  lemma StartWorkersOk(submitters: nat, size: nat)
    ensures var s := Start(submitters, size); MutexOk(s) && FlagsOk(s) && PlacesOk(s) && RunsOk(s)
  {
    var s := Start(submitters, size);
    assert forall i: nat :: i < size ==> s.workers[i] == Fresh() && Slot(s, i) == None;
  }

  lemma SubmitKeepsQueue(s: State, t: nat, p: Pkg)
    requires LaunchOk(s) && PumpOk(s) && RawOk(s) && FifoOk(s) && Enabled(s, Submit(t, p))
    ensures var v := Next(s, Submit(t, p)); LaunchOk(v) && PumpOk(v) && RawOk(v) && FifoOk(v)
  {
  }

  lemma SubKeepsPump(s: State, t: nat)
    requires PumpOk(s) && Enabled(s, Sub(t))
    ensures PumpOk(SubStep(s, t))
  {
  }

  lemma SubKeepsQueue(s: State, t: nat)
    requires LaunchOk(s) && PumpOk(s) && RawOk(s) && FifoOk(s) && Enabled(s, Sub(t))
    ensures LaunchOk(SubStep(s, t)) && RawOk(SubStep(s, t)) && FifoOk(SubStep(s, t))
  {
    var v := SubStep(s, t);
    if s.subs[t].Locked? {
      assert s.submitted + [s.subs[t].p] == s.dispatched + Held(s) + (s.queue + [s.subs[t].p]);
    }
  }

  /** Steps that leave the workers alone, and at most wake the dispatcher or move it on to another worker. */
  predicate WorkersSame(s: State, v: State) {
    && v.workers == s.workers
    && (v.disp == s.disp || v.disp == Awake(s.disp) || (v.disp.Assigning? && s.disp.Assigning?))
    && v.dispatched == s.dispatched && v.to == s.to && v.ran == s.ran && v.finished == s.finished && v.raw == s.raw
  }

  lemma SameFlags(s: State, v: State)
    requires WorkersSame(s, v) && MutexOk(s) && FlagsOk(s)
    ensures MutexOk(v) && FlagsOk(v)
  {
    forall i: nat | i < |v.workers| ensures FlagOk(v, i) {
      assert FlagOk(s, i);
    }
  }

  lemma SamePlaces(s: State, v: State)
    requires WorkersSame(s, v) && PlacesOk(s) && RunsOk(s)
    ensures PlacesOk(v) && RunsOk(v)
  {
    assert forall i: nat :: i < |s.workers| ==> Slot(v, i) == Slot(s, i);
  }

  lemma MissKeepsQueue(s: State)
    requires LaunchOk(s) && PumpOk(s) && RawOk(s) && FifoOk(s) && Enabled(s, Miss)
    ensures LaunchOk(Next(s, Miss)) && PumpOk(Next(s, Miss)) && RawOk(Next(s, Miss)) && FifoOk(Next(s, Miss))
  {
  }

  lemma DispKeepsRaw(s: State)
    requires RawOk(s) && Enabled(s, Disp)
    ensures RawOk(DispStep(s))
  {
  }

  lemma DispKeepsPump(s: State)
    requires PumpOk(s) && RawOk(s) && Enabled(s, Disp)
    ensures PumpOk(DispStep(s))
  {
    var v := DispStep(s);
    assert v.subs == s.subs && (v.pump == s.pump || s.pump == Dispatcher || v.pump == Dispatcher);
  }

  lemma DispKeepsFifo(s: State)
    requires RawOk(s) && FifoOk(s) && Enabled(s, Disp)
    ensures FifoOk(DispStep(s))
  {
  }

  lemma DispKeepsMutex(s: State)
    requires MutexOk(s) && Enabled(s, Disp)
    ensures MutexOk(DispStep(s))
  {
    var v := DispStep(s);
    forall i: nat | i < |v.workers|
      ensures v.workers[i].holder.ByDispatcher? <==> DispHolds(v.disp) && v.disp.worker == i
      ensures v.workers[i].holder.ByWorker? <==> WorkerHolds(v.workers[i].pc)
    {
      assert s.workers[i].holder.ByDispatcher? <==> DispHolds(s.disp) && s.disp.worker == i;
    }
  }

  /** The worker that the dispatcher has filled waits. */
  lemma FilledWaits(s: State)
    requires LaunchOk(s) && MutexOk(s) && FlagsOk(s) && s.disp.Filled?
    ensures s.workers[s.disp.worker].pc.Waiting?
  {
    assert FlagOk(s, s.disp.worker);
  }

  lemma DispKeepsFlags(s: State)
    requires LaunchOk(s) && MutexOk(s) && RawOk(s) && FlagsOk(s) && Enabled(s, Disp)
    ensures FlagsOk(DispStep(s))
  {
    var v := DispStep(s);
    if s.disp.Filled? { FilledWaits(s); }
    forall i: nat | i < |v.workers| ensures FlagOk(v, i) {
      DispKeepsFlag(s, i);
    }
  }

  lemma DispKeepsFlag(s: State, i: nat)
    requires MutexOk(s) && RawOk(s) && Enabled(s, Disp) && i < |s.workers| && FlagOk(s, i)
    requires s.disp.Filled? ==> s.workers[s.disp.worker].pc.Waiting?
    ensures FlagOk(DispStep(s), i)
  {
  }

  /** Handing over is the only step of the dispatcher that changes a slot. */
  lemma DispSlots(s: State)
    requires MutexOk(s) && FlagsOk(s) && Enabled(s, Disp)
    ensures |DispStep(s).workers| == |s.workers|
    ensures forall i: nat :: i < |s.workers| ==>
      Slot(DispStep(s), i) == (if s.disp == Filling(i) then s.raw else Slot(s, i)) &&
        DispStep(s).workers[i].pc.Ran? == s.workers[i].pc.Ran?
    ensures s.disp.Filling? ==> Slot(s, s.disp.worker) == None
  {
    forall i: nat | i < |s.workers| ensures Slot(DispStep(s), i) == if s.disp == Filling(i) then s.raw else Slot(s, i) {
      assert FlagOk(s, i);
    }
    if s.disp.Filling? { assert FlagOk(s, s.disp.worker); }
  }

  lemma DispKeepsPlaces(s: State)
    requires RawOk(s) && FifoOk(s) && MutexOk(s) && FlagsOk(s) && PlacesOk(s) && Enabled(s, Disp)
    ensures PlacesOk(DispStep(s))
  {
    var v := DispStep(s);
    DispSlots(s);
    if s.disp.Filling? {
      RawIsNew(s);
      FillKeepsPlaces(s, v, s.disp.worker, s.raw.value);
    }
  }

  /** What the dispatcher holds has not been given away before. */
  lemma RawIsNew(s: State)
    requires FifoOk(s) && s.raw.Some? && !Handed(s.disp)
    ensures s.raw.value !in s.dispatched
  {
    var n := |s.dispatched|;
    assert s.submitted[n] == s.raw.value;
    assert forall k: nat :: k < n ==> s.submitted[k] == s.dispatched[k];
  }

  lemma FillKeepsPlaces(s: State, v: State, i: nat, p: Pkg)
    requires PlacesOk(s) && i < |s.workers| && |v.workers| == |s.workers| && p !in s.dispatched && Slot(s, i) == None
    requires v.dispatched == s.dispatched + [p] && v.to == s.to + [i] && v.finished == s.finished
    requires forall j: nat :: j < |s.workers| ==> Slot(v, j) == if j == i then Some(p) else Slot(s, j)
    ensures PlacesOk(v)
  {
    assert forall k: nat :: k < |s.dispatched| ==> v.dispatched[k] == s.dispatched[k] && v.to[k] == s.to[k];
    assert v.dispatched[|s.dispatched|] == p;
  }

  lemma DispKeepsRuns(s: State)
    requires RawOk(s) && FifoOk(s) && MutexOk(s) && FlagsOk(s) && RunsOk(s) && Enabled(s, Disp)
    ensures RunsOk(DispStep(s))
  {
    DispSlots(s);
    if s.disp.Filling? {
      RawIsNew(s);
      assert FlagOk(s, s.disp.worker);
    }
  }

  lemma WorkKeepsQueue(s: State, i: nat)
    requires PumpOk(s) && RawOk(s) && FifoOk(s) && Enabled(s, Work(i))
    ensures PumpOk(WorkStep(s, i)) && RawOk(WorkStep(s, i)) && FifoOk(WorkStep(s, i))
  {
    var v := WorkStep(s, i);
    WorkLeavesQueue(s, i);
    assert Held(v) == Held(s) && Owed(v) == Owed(s);
  }

  /** A worker's step touches nothing of the pump and the dispatcher, whom it may wake. */
  lemma WorkLeavesQueue(s: State, i: nat)
    requires Enabled(s, Work(i))
    ensures var v := WorkStep(s, i);
      && v.queue == s.queue && v.load == s.load && v.pump == s.pump && v.subs == s.subs && v.raw == s.raw
      && v.submitted == s.submitted && v.dispatched == s.dispatched && v.to == s.to
      && (v.disp == s.disp || v.disp == Awake(s.disp))
  {
  }

  lemma WorkKeepsMutex(s: State, i: nat)
    requires MutexOk(s) && Enabled(s, Work(i))
    ensures MutexOk(WorkStep(s, i))
  {
  }

  lemma WorkKeepsFlags(s: State, i: nat)
    requires MutexOk(s) && FlagsOk(s) && Enabled(s, Work(i))
    ensures FlagsOk(WorkStep(s, i))
  {
    var v := WorkStep(s, i);
    forall j: nat | j < |v.workers| ensures FlagOk(v, j) {
      assert FlagOk(s, j);
      assert FlagOk(s, i);
    }
  }

  lemma WorkSlots(s: State, i: nat)
    requires MutexOk(s) && FlagsOk(s) && Enabled(s, Work(i))
    ensures |WorkStep(s, i).workers| == |s.workers|
    ensures forall j: nat :: j < |s.workers| ==>
      Slot(WorkStep(s, i), j) == if j == i && s.workers[i].pc.Ran? then None else Slot(s, j)
    ensures forall j: nat :: j < |s.workers| && j != i ==> WorkStep(s, i).workers[j] == s.workers[j]
    ensures s.workers[i].pc.Run? || s.workers[i].pc.Ran? ==> Slot(s, i) == s.workers[i].current && Slot(s, i).Some?
  {
    assert FlagOk(s, i);
  }

  lemma WorkKeepsPlaces(s: State, i: nat)
    requires MutexOk(s) && FlagsOk(s) && PlacesOk(s) && Enabled(s, Work(i))
    ensures PlacesOk(WorkStep(s, i))
  {
    WorkSlots(s, i);
    if s.workers[i].pc.Ran? {
      FinishKeepsPlaces(s, WorkStep(s, i), i);
    }
  }

  lemma FinishKeepsPlaces(s: State, v: State, i: nat)
    requires PlacesOk(s) && i < |s.workers| && |v.workers| == |s.workers| && Slot(s, i).Some?
    requires v.dispatched == s.dispatched && v.to == s.to && v.finished == s.finished + [Slot(s, i).value]
    requires forall j: nat :: j < |s.workers| ==> Slot(v, j) == if j == i then None else Slot(s, j)
    ensures PlacesOk(v)
  {
  }

  lemma WorkKeepsRuns(s: State, i: nat)
    requires MutexOk(s) && FlagsOk(s) && PlacesOk(s) && RunsOk(s) && Enabled(s, Work(i))
    ensures RunsOk(WorkStep(s, i))
  {
    WorkSlots(s, i);
    assert FlagOk(s, i);
  }

  /** A step of the dispatcher leaves the start alone, and does not take it into or out of its loop early. */
  lemma DispKeepsLaunch(s: State)
    requires LaunchOk(s) && RawOk(s) && MutexOk(s) && Enabled(s, Disp)
    ensures LaunchOk(DispStep(s))
  {
    DispLeavesStart(s);
  }

  lemma DispLeavesStart(s: State)
    requires MutexOk(s) && Enabled(s, Disp)
    ensures var v := DispStep(s);
      && v.launch == s.launch && |v.workers| == |s.workers| && !v.disp.Absent?
      && (Outside(v.disp) ==> v.dispatched == s.dispatched && s.disp.Entry?)
      && (v.disp.Ended? || s.launch.Launched? || !s.disp.Entry?)
      && forall i: nat :: i < |s.workers| ==>
           v.workers[i].pc == s.workers[i].pc || (s.workers[i].pc.Waiting? && v.workers[i].pc.Woken?)
  {
  }

  lemma WorkKeepsLaunch(s: State, i: nat)
    requires LaunchOk(s) && Enabled(s, Work(i))
    ensures LaunchOk(WorkStep(s, i))
  {
    WorkLeavesQueue(s, i);
    var v := WorkStep(s, i);
    assert forall j: nat :: j < |s.workers| && j != i ==> v.workers[j] == s.workers[j];
  }

  lemma LaunchKeepsQueue(s: State)
    requires LaunchOk(s) && PumpOk(s) && RawOk(s) && FifoOk(s) && Enabled(s, Launch)
    ensures var v := LaunchStep(s); LaunchOk(v) && PumpOk(v) && RawOk(v) && FifoOk(v)
  {
  }

  /** Starting a thread touches no flag, no mutex and no slot. */
  lemma LaunchKeepsWorkers(s: State)
    requires LaunchOk(s) && MutexOk(s) && FlagsOk(s) && Enabled(s, Launch)
    ensures var v := LaunchStep(s); MutexOk(v) && FlagsOk(v)
  {
    var v := LaunchStep(s);
    forall i: nat | i < |v.workers| ensures FlagOk(v, i) {
      assert FlagOk(s, i);
    }
  }

  lemma LaunchKeepsPlaces(s: State)
    requires LaunchOk(s) && FlagsOk(s) && PlacesOk(s) && RunsOk(s) && Enabled(s, Launch)
    ensures var v := LaunchStep(s); PlacesOk(v) && RunsOk(v)
  {
    var v := LaunchStep(s);
    assert forall i: nat :: i < |s.workers| ==>
      Slot(v, i) == Slot(s, i) && v.workers[i].pc.Ran? == s.workers[i].pc.Ran?;
  }

  /** Every step of every thread keeps the invariant. */
  lemma InvKept(s: State, step: Step)
    requires Inv(s) && Enabled(s, step)
    ensures Inv(Next(s, step))
  {
    var v := Next(s, step);
    match step
    case Submit(t, p) =>
      SubmitKeepsQueue(s, t, p);
      SameFlags(s, v);
      SamePlaces(s, v);
    case Sub(t) =>
      SubKeepsPump(s, t);
      SubKeepsQueue(s, t);
      SameFlags(s, v);
      SamePlaces(s, v);
    case Launch =>
      LaunchKeepsQueue(s);
      LaunchKeepsWorkers(s);
      LaunchKeepsPlaces(s);
    case Disp =>
      DispKeepsLaunch(s);
      DispKeepsRaw(s);
      DispKeepsPump(s);
      DispKeepsFifo(s);
      DispKeepsMutex(s);
      DispKeepsFlags(s);
      DispKeepsPlaces(s);
      DispKeepsRuns(s);
    case Miss =>
      MissKeepsQueue(s);
      SameFlags(s, v);
      SamePlaces(s, v);
    case Work(i) =>
      WorkKeepsLaunch(s, i);
      WorkKeepsQueue(s, i);
      WorkKeepsMutex(s, i);
      WorkKeepsFlags(s, i);
      WorkKeepsPlaces(s, i);
      WorkKeepsRuns(s, i);
  }

  /** Where a package can be. */
  ghost predicate InSlot(s: State, p: Pkg) { exists i: nat :: i < |s.workers| && Slot(s, i) == Some(p) }

  // ---------------------------------------------------------------------------------------------
  // Runs
  // ---------------------------------------------------------------------------------------------

  /** The state after a sequence of steps; None if one of them cannot be taken. */
  function After(submitters: nat, size: nat, steps: seq<Step>): Option<State> {
    if steps == [] then Some(Start(submitters, size))
    else
      match After(submitters, size, steps[..|steps| - 1])
      case None => None
      case Some(s) => if Enabled(s, steps[|steps| - 1]) then Some(Next(s, steps[|steps| - 1])) else None
  }

  /** The invariant holds in every state of every interleaving. */
  lemma {:induction false} InvThroughout(submitters: nat, size: nat, steps: seq<Step>)
    requires After(submitters, size, steps).Some?
    ensures Inv(After(submitters, size, steps).value)
    decreases |steps|
  {
    if steps == [] {
      StartOk(submitters, size);
    } else {
      InvThroughout(submitters, size, steps[..|steps| - 1]);
      InvKept(After(submitters, size, steps[..|steps| - 1]).value, steps[|steps| - 1]);
    }
  }

  predicate ExactlyOne(a: bool, b: bool, c: bool, d: bool) {
    (a || b || c || d) && !(a && (b || c || d)) && !(b && (c || d)) && !(c && d)
  }

  lemma OnePlaceInv(s: State, p: Pkg)
    requires Inv(s) && p in s.submitted
    ensures ExactlyOne(p in s.queue, Held(s) == [p], InSlot(s, p), p in s.finished)
    ensures forall i: nat, j: nat ::
      i < |s.workers| && j < |s.workers| && Slot(s, i) == Some(p) && Slot(s, j) == Some(p) ==> i == j
  {
    var k: nat :| k < |s.submitted| && s.submitted[k] == p;
    Parts(s.submitted, s.dispatched, Held(s), s.queue, p);
    if p in s.dispatched {
      var d: nat :| d < |s.dispatched| && s.dispatched[d] == p;
      assert p in s.finished || Slot(s, s.to[d]) == Some(p);
    }
  }

  /** An element of a sequence without repetitions is in exactly one of its three parts. */
  lemma Parts(all: seq<Pkg>, a: seq<Pkg>, b: seq<Pkg>, c: seq<Pkg>, p: Pkg)
    requires all == a + b + c && Distinct(all) && p in all
    ensures ExactlyOne(p in a, p in b, p in c, false)
  {
    if p in a { var k: nat :| k < |a| && a[k] == p; assert all[k] == p; }
    if p in b { var k: nat :| k < |b| && b[k] == p; assert all[|a| + k] == p; }
    if p in c { var k: nat :| k < |c| && c[k] == p; assert all[|a| + |b| + k] == p; }
  }

  /** Each submitted package is in exactly one place: the pump, the dispatcher's hand, the slot of one
      worker, or finished. */
  lemma OnePlace(submitters: nat, size: nat, steps: seq<Step>, p: Pkg)
    requires After(submitters, size, steps).Some?
    requires p in After(submitters, size, steps).value.submitted
    ensures var s := After(submitters, size, steps).value;
      && ExactlyOne(p in s.queue, Held(s) == [p], InSlot(s, p), p in s.finished)
      && forall i: nat, j: nat ::
           i < |s.workers| && j < |s.workers| && Slot(s, i) == Some(p) && Slot(s, j) == Some(p) ==> i == j
  {
    InvThroughout(submitters, size, steps);
    OnePlaceInv(After(submitters, size, steps).value, p);
  }

  /** Packages are given to workers in the order they were queued, each one once. */
  lemma DispatchedInOrder(submitters: nat, size: nat, steps: seq<Step>)
    requires After(submitters, size, steps).Some?
    ensures var s := After(submitters, size, steps).value; s.dispatched <= s.submitted && Distinct(s.dispatched)
  {
    InvThroughout(submitters, size, steps);
    var s := After(submitters, size, steps).value;
    assert forall k: nat :: k < |s.dispatched| ==> s.submitted[k] == s.dispatched[k];
  }

  /** The load is the length of the queue whenever nobody holds the pump's mutex. */
  lemma LoadIsExact(submitters: nat, size: nat, steps: seq<Step>)
    requires After(submitters, size, steps).Some? && After(submitters, size, steps).value.pump == Nobody
    ensures var s := After(submitters, size, steps).value; s.load == |s.queue|
  {
    InvThroughout(submitters, size, steps);
  }

  /** A loaded worker is never overwritten: the dispatcher fills a worker only while its flag is clear, and
      never with nothing. */
  lemma NeverOverwritten(submitters: nat, size: nat, steps: seq<Step>)
    requires After(submitters, size, steps).Some? && After(submitters, size, steps).value.disp.Filling?
    ensures var s := After(submitters, size, steps).value;
      s.disp.worker < |s.workers| && !s.workers[s.disp.worker].loaded && s.raw.Some?
  {
    InvThroughout(submitters, size, steps);
    var s := After(submitters, size, steps).value;
    assert FlagOk(s, s.disp.worker);
  }

  /** A worker that waits with a package is about to be notified. */
  lemma WaitingIsNotified(submitters: nat, size: nat, steps: seq<Step>, i: nat)
    requires After(submitters, size, steps).Some?
    requires var s := After(submitters, size, steps).value;
      i < |s.workers| && s.workers[i].pc.Waiting? && s.workers[i].loaded
    ensures var s := After(submitters, size, steps).value; s.disp == Flagged(i) || s.disp == Notifying(i)
  {
    InvThroughout(submitters, size, steps);
    assert FlagOk(After(submitters, size, steps).value, i);
  }

  /** A worker that runs has a package to run, its own and not run before. */
  lemma RunsItsOwn(submitters: nat, size: nat, steps: seq<Step>, i: nat)
    requires After(submitters, size, steps).Some?
    requires var s := After(submitters, size, steps).value; i < |s.workers| && s.workers[i].pc.Run?
    ensures var s := After(submitters, size, steps).value; var p := s.workers[i].current;
      p.Some? && Slot(s, i) == p && p.value !in s.ran
  {
    InvThroughout(submitters, size, steps);
    assert FlagOk(After(submitters, size, steps).value, i);
  }

  /** No package is run twice. */
  lemma NothingRunTwice(submitters: nat, size: nat, steps: seq<Step>)
    requires After(submitters, size, steps).Some?
    ensures var s := After(submitters, size, steps).value; Distinct(s.ran) && Within(s.ran, s.submitted)
  {
    InvThroughout(submitters, size, steps);
  }

  /** With nothing queued, nothing held and all slots empty, everything submitted has been run and
      finished, each package once. */
  lemma AtRestAllFinished(submitters: nat, size: nat, steps: seq<Step>)
    requires After(submitters, size, steps).Some?
    requires var s := After(submitters, size, steps).value;
      s.queue == [] && Held(s) == [] && forall i: nat :: i < |s.workers| ==> Slot(s, i) == None
    ensures var s := After(submitters, size, steps).value;
      && Within(s.submitted, s.finished) && Within(s.finished, s.submitted) && Distinct(s.finished)
      && Within(s.submitted, s.ran) && Within(s.ran, s.submitted) && Distinct(s.ran)
  {
    InvThroughout(submitters, size, steps);
    var s := After(submitters, size, steps).value;
    assert s.submitted == s.dispatched;
    assert Within(s.submitted, s.finished);
  }
}
