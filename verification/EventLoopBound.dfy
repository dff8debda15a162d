/** How many steps the event loop can take: every step inside it uses up work that an accepted message has
    brought in, so that every schedule comes to an end, and at the end everything is delivered. */
module EventLoopBound {
  import opened EventLoop
  import opened Seqs
  import opened Sums
  import opened Wrappers

  // ---------------------------------------------------------------------------------------------
  // Work
  // ---------------------------------------------------------------------------------------------

  /** What a message costs from the moment it is enqueued: a call for each listener, and the steps around. */
  function Cost(c: Listeners, m: Msg): nat { Count(c, m.etype) + 11 }

  /** What a thread inside `add_event` has before it, and the start of the task it may post. */
  function ProducerWork(pc: ProducerPc): nat {
    match pc
    case Allocated(_) => 8
    case Locked(_) => 7
    case FirstPtr(_) => 6
    case FirstTail(_) => 5
    case FirstHead(_) => 4
    case Retask => 3
    case LinkedNext(_) => 3
    case MovedTail(_) => 2
    case MovedPtr(_) => 1
  }

  /** What a drain task has before it apart from the nodes of the list. */
  function DrainWork(pc: DrainPc): nat {
    match pc
    case ReadHead => 1
    case OnNode(_, _) => 0
    case Leaving(_, _) => 1
    case ResetUnlock(_) => 4
    case ResetReadNext(_) => 3
    case ResetLeaving(_, _) => 2
    case Exit => 1
  }

  function ProducerWorks(producers: map<nat, ProducerPc>): map<nat, nat> {
    map t | t in producers :: ProducerWork(producers[t])
  }

  function DrainWorks(drains: map<nat, DrainPc>): map<nat, nat> { map d | d in drains :: DrainWork(drains[d]) }

  ghost function ProducersWork(producers: map<nat, ProducerPc>): nat { Total(ProducerWorks(producers)) }

  ghost function DrainsWork(drains: map<nat, DrainPc>): nat { Total(DrainWorks(drains)) }

  /** What the messages cost that have not been enqueued yet. */
  ghost function HeldCost(c: Listeners, accepted: map<Msg, Progress>): nat { Total(HeldCosts(c, accepted)) }

  function HeldCosts(c: Listeners, accepted: map<Msg, Progress>): map<Msg, nat> {
    map m | m in accepted :: if accepted[m].Held? then Cost(c, m) else 0
  }

  /** What the messages cost from the k-th on. */
  function ListCost(c: Listeners, enq: seq<Msg>, k: nat): nat
    requires k <= |enq|
    decreases |enq| - k
  {
    if k == |enq| then 0 else Cost(c, enq[k]) + ListCost(c, enq, k + 1)
  }

  /** How much of the cost of the front node's message has been used up; `n` is the number of its listeners. */
  function PointDone(at: Point, n: nat): nat {
    match at
    case Test => 0
    case Inform(_, k) => 1 + k
    case TestTail => 2 + n
    case WantLock => 3 + n
    case Recheck => 4 + n
    case ClearedPtr => 5 + n
    case Unlock => 5 + n
    case ClearedTail => 6 + n
    case ReadNext => 6 + n
  }

  /** The active drain task is at a node of the list. */
  predicate AtNode(s: State) { s.token.WithDrain? && s.token.d in s.drains && s.drains[s.token.d].OnNode? }

  function FrontDone(c: Listeners, s: State): nat {
    if AtNode(s) && s.popped < |s.enq| then
      PointDone(s.drains[s.token.d].at, Count(c, s.enq[s.popped].etype))
    else 0
  }

  /** The work that is left. */
  ghost function Left(c: Listeners, s: State): int
    requires s.popped <= |s.enq|
  {
    ProducersWork(s.producers) + DrainsWork(s.drains) + 2 * s.posted + HeldCost(c, s.accepted) +
    ListCost(c, s.enq, s.popped) - FrontDone(c, s)
  }

  lemma ProducerAdvances(m: map<nat, ProducerPc>, t: nat, pc: ProducerPc)
    requires t in m
    ensures ProducersWork(m[t := pc]) + ProducerWork(m[t]) == ProducersWork(m) + ProducerWork(pc)
  {
    var w := ProducerWorks(m);
    assert ProducerWorks(m[t := pc]) == w[t := ProducerWork(pc)];
    TotalChanged(w, t, ProducerWork(pc));
  }

  lemma ProducerEnters(m: map<nat, ProducerPc>, t: nat, pc: ProducerPc)
    requires t !in m
    ensures ProducersWork(m[t := pc]) == ProducersWork(m) + ProducerWork(pc)
  {
    var w := ProducerWorks(m);
    assert ProducerWorks(m[t := pc]) == w[t := ProducerWork(pc)];
    TotalAdded(w, t, ProducerWork(pc));
  }

  lemma ProducerGoes(m: map<nat, ProducerPc>, t: nat)
    requires t in m
    ensures ProducersWork(m - {t}) + ProducerWork(m[t]) == ProducersWork(m)
  {
    var w := ProducerWorks(m);
    assert ProducerWorks(m - {t}) == w - {t};
    TotalWithout(w, t);
  }

  lemma DrainAdvances(m: map<nat, DrainPc>, d: nat, pc: DrainPc)
    requires d in m
    ensures DrainsWork(m[d := pc]) + DrainWork(m[d]) == DrainsWork(m) + DrainWork(pc)
  {
    var w := DrainWorks(m);
    assert DrainWorks(m[d := pc]) == w[d := DrainWork(pc)];
    TotalChanged(w, d, DrainWork(pc));
  }

  lemma DrainEnters(m: map<nat, DrainPc>, d: nat, pc: DrainPc)
    requires d !in m
    ensures DrainsWork(m[d := pc]) == DrainsWork(m) + DrainWork(pc)
  {
    var w := DrainWorks(m);
    assert DrainWorks(m[d := pc]) == w[d := DrainWork(pc)];
    TotalAdded(w, d, DrainWork(pc));
  }

  lemma DrainGoes(m: map<nat, DrainPc>, d: nat)
    requires d in m
    ensures DrainsWork(m - {d}) + DrainWork(m[d]) == DrainsWork(m)
  {
    var w := DrainWorks(m);
    assert DrainWorks(m - {d}) == w - {d};
    TotalWithout(w, d);
  }

  lemma MessageEnters(c: Listeners, accepted: map<Msg, Progress>, m: Msg, t: nat)
    requires m !in accepted
    ensures HeldCost(c, accepted[m := Held(t)]) == HeldCost(c, accepted) + Cost(c, m)
  {
    var w := HeldCosts(c, accepted);
    var after := accepted[m := Held(t)];
    assert HeldCosts(c, after) == w[m := Cost(c, m)];
    TotalAdded(w, m, Cost(c, m));
  }

  lemma MessageQueues(c: Listeners, accepted: map<Msg, Progress>, m: Msg, k: nat)
    requires m in accepted && accepted[m].Held?
    ensures HeldCost(c, accepted[m := Enqueued(k)]) + Cost(c, m) == HeldCost(c, accepted)
  {
    var w := HeldCosts(c, accepted);
    var after := accepted[m := Enqueued(k)];
    assert HeldCosts(c, after) == w[m := 0];
    TotalChanged(w, m, 0);
  }

  lemma {:induction false} ListGrows(c: Listeners, enq: seq<Msg>, m: Msg, k: nat)
    requires k <= |enq|
    ensures ListCost(c, enq + [m], k) == ListCost(c, enq, k) + Cost(c, m)
    decreases |enq| - k
  {
    if k == |enq| {
      assert ListCost(c, enq + [m], k + 1) == 0;
    } else {
      ListGrows(c, enq, m, k + 1);
    }
  }

  // ---------------------------------------------------------------------------------------------
  // Every step inside the loop uses up work
  // ---------------------------------------------------------------------------------------------

  /** The state after a producer has taken the lock. */
  lemma LockTaken(s: State, t: nat)
    requires InvOnce(s) && ProduceStep(s, t).Some? && s.producers[t].Allocated?
    ensures var item := s.producers[t].item; item in s.heap && s.heap[item].ptr.Some?
    ensures var item, s' := s.producers[t].item, ProduceStep(s, t).value; var m := s.heap[item].ptr.value;
      && m in s.accepted && s.accepted[m] == Held(t)
      && s' == s.(lock := ByProducer(t), producers := s.producers[t := Locked(item)], enq := s.enq + [m],
                  accepted := s.accepted[m := Enqueued(|s.enq|)])
  {
  }

  lemma TakingLockUses(c: Listeners, s: State, t: nat)
    requires InvOnce(s) && s.popped <= |s.enq| && ProduceStep(s, t).Some? && s.producers[t].Allocated?
    requires AtNode(s) ==> s.popped < |s.enq|
    ensures var s' := ProduceStep(s, t).value; s'.popped <= |s'.enq| && Left(c, s') < Left(c, s)
  {
    LockTaken(s, t);
    var item := s.producers[t].item;
    var m := s.heap[item].ptr.value;
    ProducerAdvances(s.producers, t, Locked(item));
    MessageQueues(c, s.accepted, m, |s.enq|);
    ListGrows(c, s.enq, m, s.popped);
  }

  /** The front node of the list belongs to a message that has been enqueued. */
  lemma FrontIsQueued(c: Listeners, s: State)
    requires InvShape(s) && InvContent(c, s)
    ensures AtNode(s) ==> s.popped < |s.links| <= |s.enq|
  {
  }

  /** A producer that only moves on. */
  lemma MovingOnUses(c: Listeners, s: State, s': State, t: nat, pc: ProducerPc)
    requires s.popped <= |s.enq| && t in s.producers && ProducerWork(pc) < ProducerWork(s.producers[t])
    requires s'.producers == s.producers[t := pc] && s'.drains == s.drains && s'.posted == s.posted
    requires s'.accepted == s.accepted && s'.enq == s.enq && s'.popped == s.popped
    requires s'.token == s.token || !AtNode(s)
    ensures Left(c, s') < Left(c, s)
  {
    ProducerAdvances(s.producers, t, pc);
  }

  /** A producer that goes. */
  lemma GoingUses(c: Listeners, s: State, s': State, t: nat)
    requires s.popped <= |s.enq| && t in s.producers && s'.producers == s.producers - {t} && s'.drains == s.drains
    requires s'.posted <= s.posted + 1 && (s'.posted > s.posted ==> s.producers[t].Retask?)
    requires s'.accepted == s.accepted && s'.enq == s.enq && s'.popped == s.popped
    requires s'.token == s.token || !AtNode(s)
    ensures Left(c, s') < Left(c, s)
  {
    ProducerGoes(s.producers, t);
  }

  /** A list that is empty has no drain task at a node of it. */
  lemma EmptyIsLeft(s: State, t: nat)
    requires InvShape(s) && t in s.producers && s.producers[t].Locked? && s.tailPtr == 0
    ensures !AtNode(s)
  {
  }

  lemma LockedUses(c: Listeners, s: State, t: nat)
    requires InvShape(s) && s.popped <= |s.enq| && ProduceStep(s, t).Some? && s.producers[t].Locked?
    requires !ProduceStep(s, t).value.fault
    ensures var s' := ProduceStep(s, t).value; s'.popped <= |s'.enq| && Left(c, s') < Left(c, s)
  {
    var s', item := ProduceStep(s, t).value, s.producers[t].item;
    if s.tailPtr == 0 {
      EmptyIsLeft(s, t);
      MovingOnUses(c, s, s', t, FirstPtr(item));
    } else {
      MovingOnUses(c, s, s', t, LinkedNext(item));
    }
  }

  lemma RetaskUses(c: Listeners, s: State, t: nat)
    requires InvToken(s) && s.popped <= |s.enq| && t in s.producers && s.producers[t].Retask?
    ensures var s' := ProduceStep(s, t).value; s'.popped <= |s'.enq| && Left(c, s') < Left(c, s)
  {
    assert Opening(s.producers[t]);
    GoingUses(c, s, ProduceStep(s, t).value, t);
  }

  lemma PlainProduceUses(c: Listeners, s: State, t: nat)
    requires s.popped <= |s.enq| && ProduceStep(s, t).Some?
    requires var pc := s.producers[t]; !Private(pc) && !pc.Retask?
    ensures var s' := ProduceStep(s, t).value; s'.popped <= |s'.enq| && Left(c, s') < Left(c, s)
  {
    var s' := ProduceStep(s, t).value;
    match s.producers[t]
    case FirstPtr(item) => MovingOnUses(c, s, s', t, FirstTail(item));
    case FirstTail(item) => MovingOnUses(c, s, s', t, FirstHead(item));
    case FirstHead(_) => MovingOnUses(c, s, s', t, Retask);
    case LinkedNext(item) => MovingOnUses(c, s, s', t, MovedTail(item));
    case MovedTail(item) => MovingOnUses(c, s, s', t, MovedPtr(item));
    case MovedPtr(_) => GoingUses(c, s, s', t);
  }

  lemma ProduceUses(c: Listeners, s: State, t: nat)
    requires InvShape(s) && InvOnce(s) && s.popped <= |s.enq| && (AtNode(s) ==> s.popped < |s.enq|)
    requires ProduceStep(s, t).Some? && !ProduceStep(s, t).value.fault
    ensures var s' := ProduceStep(s, t).value; s'.popped <= |s'.enq| && Left(c, s') < Left(c, s)
  {
    var pc := s.producers[t];
    if pc.Allocated? {
      TakingLockUses(c, s, t);
    } else if pc.Locked? {
      LockedUses(c, s, t);
    } else if pc.Retask? {
      RetaskUses(c, s, t);
    } else {
      PlainProduceUses(c, s, t);
    }
  }

  lemma StartUses(c: Listeners, s: State, d: nat)
    requires InvToken(s) && s.popped <= |s.enq| && StartStep(s, d).Some?
    ensures var s' := StartStep(s, d).value; s'.popped <= |s'.enq| && Left(c, s') < Left(c, s)
  {
    DrainEnters(s.drains, d, ReadHead);
  }

  /** A drain task that moves on away from the nodes of the list. */
  lemma DrainOnUses(c: Listeners, s: State, s': State, d: nat, pc: DrainPc)
    requires s.popped <= |s.enq| && d in s.drains && DrainWork(pc) < DrainWork(s.drains[d])
    requires s'.producers == s.producers && s'.drains == s.drains[d := pc] && s'.posted == s.posted
    requires s'.accepted == s.accepted && s'.enq == s.enq && s'.popped == s.popped && s'.token == s.token
    requires !pc.OnNode? || pc.at.Test?
    ensures Left(c, s') < Left(c, s)
  {
    DrainAdvances(s.drains, d, pc);
    assert !s.drains[d].OnNode?;
  }

  lemma ExitUses(c: Listeners, s: State, d: nat)
    requires s.popped <= |s.enq| && d in s.drains && s.drains[d].Exit?
    ensures var s' := DrainStep(c, s, d).value; Left(c, s') < Left(c, s)
  {
    DrainGoes(s.drains, d);
  }

  /** The active drain task at its node moves on to another point there. */
  lemma PointUses(c: Listeners, s: State, s': State, at: Point)
    requires s.popped < |s.enq| && AtNode(s)
    requires var n := Count(c, s.enq[s.popped].etype); PointDone(at, n) > PointDone(s.drains[s.token.d].at, n)
    requires s'.producers == s.producers && s'.drains == s.drains[s.token.d := OnNode(s.drains[s.token.d].node, at)]
    requires s'.accepted == s.accepted && s'.enq == s.enq && s'.popped == s.popped && s'.token == s.token
    requires s'.posted == s.posted
    ensures Left(c, s') < Left(c, s)
  {
    DrainAdvances(s.drains, s.token.d, OnNode(s.drains[s.token.d].node, at));
  }

  /** It leaves the node, which is the front of the list. */
  lemma LeavingUses(c: Listeners, s: State, s': State, pc: DrainPc)
    requires s.popped < |s.enq| && AtNode(s) && PointDone(s.drains[s.token.d].at, 0) <= 6
    requires s.drains[s.token.d].at.ReadNext? || s.drains[s.token.d].at.ClearedTail?
    requires !pc.OnNode? && DrainWork(pc) <= 4
    requires s'.producers == s.producers && s'.drains == s.drains[s.token.d := pc]
    requires s'.accepted == s.accepted && s'.enq == s.enq && s'.popped == s.popped + 1 && s'.posted == s.posted
    requires s'.token == s.token || s'.token == NoList
    ensures Left(c, s') < Left(c, s)
  {
    DrainAdvances(s.drains, s.token.d, pc);
  }

  /** Where the active drain task goes next from a point at its node, when it does not leave it. */
  lemma AtNodeUses(c: Listeners, s: State)
    requires s.popped < |s.enq| && AtNode(s) && DrainStep(c, s, s.token.d).Some?
    requires var at := s.drains[s.token.d].at; !at.ReadNext? && !at.ClearedTail? && !at.Inform?
    requires !DrainStep(c, s, s.token.d).value.fault
    ensures var s' := DrainStep(c, s, s.token.d).value; s'.popped <= |s'.enq| && Left(c, s') < Left(c, s)
  {
    PointMoves(c, s);
    var s' := DrainStep(c, s, s.token.d).value;
    PointUses(c, s, s', s'.drains[s.token.d].at);
  }

  /** Such a step changes nothing of what the work depends on but the point. */
  lemma PointMoves(c: Listeners, s: State)
    requires AtNode(s) && DrainStep(c, s, s.token.d).Some?
    requires var at := s.drains[s.token.d].at; !at.ReadNext? && !at.ClearedTail? && !at.Inform?
    requires !DrainStep(c, s, s.token.d).value.fault
    ensures OnlyPoint(s, DrainStep(c, s, s.token.d).value, s.token.d)
  {
    var OnNode(node, at) := s.drains[s.token.d];
    StepAtNode(c, s, s.token.d, node, at);
  }

  predicate OnlyPoint(s: State, s': State, d: nat)
    requires d in s.drains && s.drains[d].OnNode?
  {
    && d in s'.drains && s'.drains[d].OnNode? && s'.drains == s.drains[d := OnNode(s.drains[d].node, s'.drains[d].at)]
    && s'.producers == s.producers && s'.accepted == s.accepted && s'.enq == s.enq && s'.popped == s.popped
    && s'.token == s.token && s'.posted == s.posted
    && PointDone(s'.drains[d].at, 0) > PointDone(s.drains[d].at, 0)
  }

  lemma StepAtNode(c: Listeners, s: State, d: nat, node: Addr, at: Point)
    requires d in s.drains && s.drains[d] == OnNode(node, at) && OnNodeStep(c, s, d, node, at).Some?
    requires !at.ReadNext? && !at.ClearedTail? && !at.Inform? && !OnNodeStep(c, s, d, node, at).value.fault
    ensures OnlyPoint(s, OnNodeStep(c, s, d, node, at).value, d)
  {
  }

  lemma InformUses(c: Listeners, s: State)
    requires s.popped < |s.enq| && AtNode(s) && s.drains[s.token.d].at.Inform?
    requires var at := s.drains[s.token.d].at; at.msg == s.enq[s.popped] && at.k <= Count(c, at.msg.etype)
    ensures var s' := DrainStep(c, s, s.token.d).value; s'.popped <= |s'.enq| && Left(c, s') < Left(c, s)
  {
    var d := s.token.d;
    var s' := DrainStep(c, s, d).value;
    PointUses(c, s, s', s'.drains[d].at);
  }

  lemma ReadNextUses(c: Listeners, s: State)
    requires s.popped < |s.enq| && AtNode(s) && s.drains[s.token.d].at.ReadNext?
    requires !DrainStep(c, s, s.token.d).value.fault
    ensures var s' := DrainStep(c, s, s.token.d).value; s'.popped <= |s'.enq| && Left(c, s') < Left(c, s)
  {
    var s' := DrainStep(c, s, s.token.d).value;
    LeavingUses(c, s, s', s'.drains[s.token.d]);
  }

  lemma ResetUses(c: Listeners, s: State)
    requires s.popped < |s.enq| && AtNode(s) && s.drains[s.token.d].at.ClearedTail? && |s.links| == s.popped + 1
    ensures var s' := DrainStep(c, s, s.token.d).value; s'.popped <= |s'.enq| && Left(c, s') < Left(c, s)
  {
    var s' := DrainStep(c, s, s.token.d).value;
    LeavingUses(c, s, s', s'.drains[s.token.d]);
  }

  lemma OnNodeUses(c: Listeners, s: State)
    requires InvShape(s) && InvContent(c, s) && AtNode(s) && DrainStep(c, s, s.token.d).Some?
    requires !DrainStep(c, s, s.token.d).value.fault
    ensures var s' := DrainStep(c, s, s.token.d).value; s'.popped <= |s'.enq| && Left(c, s') < Left(c, s)
  {
    FrontIsQueued(c, s);
    var at := s.drains[s.token.d].at;
    if at.Inform? {
      assert FrontPoint(s) == Some(at);
      InformUses(c, s);
    } else if at.ReadNext? {
      ReadNextUses(c, s);
    } else if at.ClearedTail? {
      assert LockingPoint(at) && Single(s, s.drains[s.token.d].node);
      ResetUses(c, s);
    } else {
      AtNodeUses(c, s);
    }
  }

  /** A drain task that reads the head, or the next node, finds one unless the list was reset. */
  lemma FindsNode(s: State, d: nat)
    requires InvShape(s) && d in s.drains
    ensures s.drains[d].ReadHead? ==> s.head != 0
    ensures s.drains[d].Leaving? ==> s.drains[d].next != 0
    ensures s.drains[d].ResetLeaving? ==> s.drains[d].next == 0
    ensures s.drains[d].OnNode? ==> AtNode(s) && s.token.d == d
  {
    assert Active(s.drains[d]) ==> s.token == WithDrain(d);
  }

  lemma OffNodeUses(c: Listeners, s: State, d: nat)
    requires s.popped <= |s.enq| && DrainStep(c, s, d).Some? && !DrainStep(c, s, d).value.fault
    requires !s.drains[d].OnNode? && !s.drains[d].Exit?
    requires s.drains[d].ReadHead? ==> s.head != 0
    requires s.drains[d].Leaving? ==> s.drains[d].next != 0
    requires s.drains[d].ResetLeaving? ==> s.drains[d].next == 0
    ensures var s' := DrainStep(c, s, d).value; s'.popped <= |s'.enq| && Left(c, s') < Left(c, s)
  {
    var s' := DrainStep(c, s, d).value;
    DrainOnUses(c, s, s', d, s'.drains[d]);
  }

  lemma DrainUses(c: Listeners, s: State, d: nat)
    requires InvShape(s) && InvContent(c, s) && DrainStep(c, s, d).Some? && !DrainStep(c, s, d).value.fault
    ensures var s' := DrainStep(c, s, d).value; s'.popped <= |s'.enq| && Left(c, s') < Left(c, s)
  {
    FindsNode(s, d);
    if s.drains[d].OnNode? {
      OnNodeUses(c, s);
    } else if s.drains[d].Exit? {
      ExitUses(c, s, d);
    } else {
      OffNodeUses(c, s, d);
    }
  }

  /** Work is never overdrawn. */
  lemma LeftIsNat(c: Listeners, s: State)
    requires InvContent(c, s)
    ensures Left(c, s) >= 0
  {
    if AtNode(s) && s.popped < |s.enq| {
      var at := s.drains[s.token.d].at;
      assert at.Inform? ==> FrontPoint(s) == Some(at);
      assert ListCost(c, s.enq, s.popped) >= Cost(c, s.enq[s.popped]);
    }
  }

  // ---------------------------------------------------------------------------------------------
  // Runs
  // ---------------------------------------------------------------------------------------------

  /** A call of `add_event` brings in the work for its message. */
  function Brought(c: Listeners, a: Action): nat {
    match a
    case AddEvent(_, Some(m), _) => if Count(c, m.etype) > 0 then Cost(c, m) + 8 else 0
    case _ => 0
  }

  /** The work brought in by a run: for each accepted message the number of its listeners and 19. */
  function Budget(c: Listeners, run: seq<Action>): nat {
    if run == [] then 0 else Budget(c, run[..|run| - 1]) + Brought(c, run[|run| - 1])
  }

  /** The steps inside the loop. */
  function Steps(run: seq<Action>): nat {
    if run == [] then 0 else Steps(run[..|run| - 1]) + if run[|run| - 1].AddEvent? then 0 else 1
  }

  lemma AddEventBrings(c: Listeners, s: State, t: nat, message: Option<Msg>, item: Addr)
    requires s.popped <= |s.enq| && AddEventStep(c, s, t, message, item).Some?
    ensures var s' := AddEventStep(c, s, t, message, item).value;
      s'.popped <= |s'.enq| && Left(c, s') == Left(c, s) + Brought(c, AddEvent(t, message, item))
  {
    if message.Some? && Count(c, message.value.etype) > 0 {
      ProducerEnters(s.producers, t, Allocated(item));
      MessageEnters(c, s.accepted, message.value, t);
    }
  }

  lemma StepUses(c: Listeners, s: State, a: Action)
    requires Inv(c, s) && !a.AddEvent? && Step(c, s, a).Some?
    ensures var s' := Step(c, s, a).value; s'.popped <= |s'.enq| && Left(c, s') < Left(c, s)
  {
    InvStep(c, s, a);
    FrontIsQueued(c, s);
    match a
    case Produce(t) => ProduceUses(c, s, t);
    case Start(d) => StartUses(c, s, d);
    case Drain(d) => DrainUses(c, s, d);
  }

  lemma {:induction false} WorkAddsUp(c: Listeners, run: seq<Action>)
    requires Run(c, run).Some?
    ensures Run(c, run).value.popped <= |Run(c, run).value.enq|
    ensures Steps(run) + Left(c, Run(c, run).value) <= Budget(c, run)
  {
    if run == [] {
      assert ProducerWorks(map[]) == map[] && DrainWorks(map[]) == map[] && HeldCosts(c, map[]) == map[];
    } else {
      var before, a := run[..|run| - 1], run[|run| - 1];
      var s := Run(c, before).value;
      WorkAddsUp(c, before);
      InvRun(c, before);
      match a
      case AddEvent(t, message, item) => AddEventBrings(c, s, t, message, item);
      case _ => StepUses(c, s, a);
    }
  }

  /** In no run do the threads inside the loop take more steps than the accepted messages have brought in. */
  lemma StepsAreBounded(c: Listeners, run: seq<Action>)
    requires Run(c, run).Some?
    ensures Steps(run) <= Budget(c, run)
  {
    WorkAddsUp(c, run);
    InvRun(c, run);
    LeftIsNat(c, Run(c, run).value);
  }

  lemma {:induction false} InsideOnly(c: Listeners, run: seq<Action>, more: seq<Action>)
    requires forall k :: 0 <= k < |more| ==> !more[k].AddEvent?
    ensures Steps(run + more) == Steps(run) + |more| && Budget(c, run + more) == Budget(c, run)
    decreases |more|
  {
    if more == [] {
      assert run + more == run;
    } else {
      var n := |more| - 1;
      InsideOnly(c, run, more[..n]);
      assert (run + more)[..|run + more| - 1] == run + more[..n];
    }
  }

  /** Every schedule delivers: when no more events are added, the threads inside the loop can go on for no
      more steps than there is work for, in whatever order they take them, and when none can go on every
      accepted message has been delivered to all its listeners. */
  lemma EveryScheduleDelivers(c: Listeners, run: seq<Action>, more: seq<Action>)
    requires Run(c, run + more).Some? && forall k :: 0 <= k < |more| ==> !more[k].AddEvent?
    ensures Steps(run) + |more| <= Budget(c, run)
    ensures var s := Run(c, run + more).value;
      || (exists a: Action :: !a.AddEvent? && Step(c, s, a).Some?)
      || (s.log == AllCalls(c, s.enq, |s.enq|) && (set m <- s.enq) == AcceptedBy(c, run))
  {
    InsideOnly(c, run, more);
    StepsAreBounded(c, run + more);
    var s := Run(c, run + more).value;
    if forall a: Action :: !a.AddEvent? ==> Step(c, s, a).None? {
      StuckMeansDelivered(c, run + more);
      SameAccepted(c, run, more);
    }
  }

  lemma {:induction false} SameAccepted(c: Listeners, run: seq<Action>, more: seq<Action>)
    requires forall k :: 0 <= k < |more| ==> !more[k].AddEvent?
    ensures AcceptedBy(c, run + more) == AcceptedBy(c, run)
    decreases |more|
  {
    if more == [] {
      assert run + more == run;
    } else {
      var n := |more| - 1;
      SameAccepted(c, run, more[..n]);
      assert (run + more)[..|run + more| - 1] == run + more[..n];
    }
  }
}
