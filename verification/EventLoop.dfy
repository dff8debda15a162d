/** The event loop: a hand-built linked list of messages whose tail is guarded by a mutex, whose
    tail pointer is also read without it, and whose drain task is posted by the producer that
    finds the list empty.

    Every statement of `add_event` and `cycle_events` that touches shared memory is one step, so
    that any number of producers and drain tasks interleave freely. Reading or deleting an address
    that holds no live node sets `fault`; the theorems show that this never happens. */
module EventLoop {
  import opened Seqs
  import opened Wrappers

  /** An address; 0 is the null pointer. A deleted address may be handed out again. */
  type Addr = nat

  /** A message object. Ownership passes with a unique pointer, so the same object is handed over once. */
  datatype Msg = Msg(id: nat, etype: int)

  /** How far an accepted message has come: held by a producer, or enqueued in position `k` (auxiliary). */
  datatype Progress = Held(t: nat) | Enqueued(k: nat)

  /** Listener number `listener` of the type of `msg`, in registration order, was called with `msg`. */
  datatype Delivery = Delivery(msg: Msg, listener: nat)

  /** Who may still reach a node: the list, where it is the node of the `pos`-th message enqueued, or
      one thread. No step reads it: it only labels nodes for the invariant. */
  datatype Owner = InList(pos: nat) | OfProducer(t: nat) | OfDrain(d: nat)

  datatype Node = Node(ptr: Option<Msg>, next: Addr, owner: Owner)

  /** Where a thread inside `add_event` is. */
  datatype ProducerPc =
    | Allocated(item: Addr)   // about to take the tail mutex
    | Locked(item: Addr)      // holds it, about to test m_tail_ptr
    | FirstPtr(item: Addr)    // list was empty: m_tail_ptr written
    | FirstTail(item: Addr)   // then m_tail written
    | FirstHead(item: Addr)   // then m_head written and retask set
    | Retask                  // mutex released, about to post the drain task
    | LinkedNext(item: Addr)  // list was not empty: m_tail->next written
    | MovedTail(item: Addr)   // then m_tail written
    | MovedPtr(item: Addr)    // then m_tail_ptr written

  /** Where a drain task is while it works on a node of the list. */
  datatype Point =
    | Test                    // loop test passed, about to move the message out
    | Inform(msg: Msg, k: nat)
    | TestTail                // the unlocked test of m_tail_ptr
    | WantLock
    | Recheck
    | ClearedPtr
    | ClearedTail
    | Unlock
    | ReadNext

  /** Where a running drain task is inside `cycle_events`. The program points after the reset are
      kept apart from the same points without one. */
  datatype DrainPc =
    | ReadHead
    | OnNode(node: Addr, at: Point)
    | Leaving(node: Addr, next: Addr)   // next read, about to delete the node
    | ResetUnlock(node: Addr)           // list reset, about to release the mutex
    | ResetReadNext(node: Addr)
    | ResetLeaving(node: Addr, next: Addr)
    | Exit                              // node is null: the loop ends

  datatype Holder = Free | ByProducer(t: nat) | ByDrain(d: nat)

  /** Who is responsible for the current list (auxiliary). */
  datatype Token = NoList | WithProducer(t: nat) | Posted | WithDrain(d: nat)

  datatype State = State(
    heap: map<Addr, Node>,
    head: Addr, tail: Addr, tailPtr: Addr,
    lock: Holder,
    posted: nat,                       // drain tasks posted and not yet started
    producers: map<nat, ProducerPc>,   // threads inside add_event
    drains: map<nat, DrainPc>,         // drain tasks running
    fault: bool,                       // a dead node was touched
    log: seq<Delivery>,                // listener calls made, in order
    // history and auxiliary variables, read by no step
    accepted: map<Msg, Progress>,      // messages for which a node has been allocated
    enq: seq<Msg>,                     // messages in the order the tail mutex was taken for them
    links: seq<Addr>,                  // addresses of all nodes ever linked into the list, in order
    popped: nat,                       // how many of them have been left behind
    token: Token)

  /** The number of listeners registered for a type; fixed during a run. */
  type Listeners = map<int, nat>

  function Count(c: Listeners, etype: int): nat {
    if etype in c then c[etype] else 0
  }

  datatype Action =
    | AddEvent(t: nat, message: Option<Msg>, item: Addr)  // call of add_event; item is the address new returns
    | Produce(t: nat)                                     // next statement of producer t
    | Start(d: nat)                                       // a worker picks up the posted task
    | Drain(d: nat)                                       // next statement of drain task d

  const INIT := State(map[], 0, 0, 0, Free, 0, map[], map[], false, [], map[], [], [], 0, NoList)

  // ---------------------------------------------------------------------------------------------
  // The steps
  // ---------------------------------------------------------------------------------------------

  /** Null messages and messages without listeners are dropped; otherwise a node is allocated. */
  function AddEventStep(c: Listeners, s: State, t: nat, message: Option<Msg>, item: Addr): Option<State> {
    if t in s.producers || item == 0 || item in s.heap then None
    else if message.None? || Count(c, message.value.etype) == 0 then Some(s)
    else if message.value in s.accepted then None
    else Some(s.(heap := s.heap[item := Node(message, 0, OfProducer(t))],
                 producers := s.producers[t := Allocated(item)],
                 accepted := s.accepted[message.value := Held(t)]))
  }

  function ProduceStep(s: State, t: nat): Option<State> {
    if t !in s.producers then None else
    match s.producers[t]
    case Allocated(item) =>
      if s.lock != Free then None
      else if item !in s.heap || s.heap[item].ptr.None? then Some(s.(fault := true))
      else Some(s.(lock := ByProducer(t), producers := s.producers[t := Locked(item)],
                   enq := s.enq + [s.heap[item].ptr.value],
                   accepted := s.accepted[s.heap[item].ptr.value := Enqueued(|s.enq|)]))
    case Locked(item) =>
      if s.tailPtr == 0 then
        Some(OwnNode(s, item, InList(|s.links|)).(tailPtr := item, producers := s.producers[t := FirstPtr(item)],
                   links := s.links + [item], token := WithProducer(t)))
      else if s.tail !in s.heap then Some(s.(fault := true))
      else
        var linked := s.(heap := s.heap[s.tail := s.heap[s.tail].(next := item)]);
        Some(OwnNode(linked, item, InList(|s.links|)).(producers := s.producers[t := LinkedNext(item)],
                        links := s.links + [item]))
    case FirstPtr(item) =>
      Some(s.(tail := item, producers := s.producers[t := FirstTail(item)]))
    case FirstTail(item) =>
      Some(s.(head := item, producers := s.producers[t := FirstHead(item)]))
    case FirstHead(item) =>
      Some(s.(lock := Free, producers := s.producers[t := Retask]))
    case Retask =>
      Some(s.(posted := s.posted + 1, producers := s.producers - {t}, token := Posted))
    case LinkedNext(item) =>
      Some(s.(tail := item, producers := s.producers[t := MovedTail(item)]))
    case MovedTail(item) =>
      Some(s.(tailPtr := item, producers := s.producers[t := MovedPtr(item)]))
    case MovedPtr(item) =>
      Some(s.(lock := Free, producers := s.producers - {t}))
  }

  function StartStep(s: State, d: nat): Option<State> {
    if s.posted == 0 || d in s.drains then None
    else Some(s.(posted := s.posted - 1, drains := s.drains[d := ReadHead], token := WithDrain(d)))
  }

  function DrainStep(c: Listeners, s: State, d: nat): Option<State> {
    if d !in s.drains then None else
    match s.drains[d]
    case ReadHead => Some(s.(drains := s.drains[d := Loop(s.head)]))
    case OnNode(node, at) => OnNodeStep(c, s, d, node, at)
    case Leaving(node, next) => DeleteStep(s, d, node, next)
    case ResetUnlock(node) => Some(s.(lock := Free, drains := s.drains[d := ResetReadNext(node)]))
    case ResetReadNext(node) =>
      if node !in s.heap then Some(s.(fault := true))
      else Some(s.(drains := s.drains[d := ResetLeaving(node, s.heap[node].next)]))
    case ResetLeaving(node, next) => DeleteStep(s, d, node, next)
    case Exit => Some(s.(drains := s.drains - {d}))
  }

  /** The test of the while loop. */
  function Loop(node: Addr): DrainPc {
    if node == 0 then Exit else OnNode(node, Test)
  }

  function DeleteStep(s: State, d: nat, node: Addr, next: Addr): Option<State> {
    if node !in s.heap then Some(s.(fault := true))
    else Some(s.(heap := s.heap - {node}, drains := s.drains[d := Loop(next)]))
  }

  function OnNodeStep(c: Listeners, s: State, d: nat, node: Addr, at: Point): Option<State> {
    match at
    case Test =>
      if node !in s.heap || s.heap[node].ptr.None? then Some(s.(fault := true))
      else Some(s.(heap := s.heap[node := s.heap[node].(ptr := None)],
                   drains := s.drains[d := OnNode(node, Inform(s.heap[node].ptr.value, 0))]))
    case Inform(msg, k) =>
      if k < Count(c, msg.etype) then
        Some(s.(log := s.log + [Delivery(msg, k)], drains := s.drains[d := OnNode(node, Inform(msg, k + 1))]))
      else
        Some(s.(drains := s.drains[d := OnNode(node, TestTail)]))
    case TestTail =>
      Some(s.(drains := s.drains[d := OnNode(node, if s.tailPtr == node then WantLock else ReadNext)]))
    case WantLock =>
      if s.lock != Free then None
      else Some(s.(lock := ByDrain(d), drains := s.drains[d := OnNode(node, Recheck)]))
    case Recheck =>
      if s.tailPtr == node then Some(s.(tailPtr := 0, drains := s.drains[d := OnNode(node, ClearedPtr)]))
      else Some(s.(drains := s.drains[d := OnNode(node, Unlock)]))
    case ClearedPtr =>
      Some(s.(tail := 0, drains := s.drains[d := OnNode(node, ClearedTail)]))
    case ClearedTail =>
      Some(OwnNode(s, node, OfDrain(d)).(head := 0, drains := s.drains[d := ResetUnlock(node)],
                   popped := |s.links|, token := NoList))
    case Unlock =>
      Some(s.(lock := Free, drains := s.drains[d := OnNode(node, ReadNext)]))
    case ReadNext =>
      if node !in s.heap then Some(s.(fault := true))
      else Some(OwnNode(s, node, OfDrain(d)).(drains := s.drains[d := Leaving(node, s.heap[node].next)],
                     popped := s.popped + 1))
  }

  /** Relabels a node; changes nothing a step reads. */
  function OwnNode(s: State, a: Addr, o: Owner): State {
    if a in s.heap then s.(heap := s.heap[a := s.heap[a].(owner := o)]) else s
  }

  /** The state after action `a`, or None when the action is blocked or makes no sense. */
  function Step(c: Listeners, s: State, a: Action): Option<State> {
    match a
    case AddEvent(t, message, item) => AddEventStep(c, s, t, message, item)
    case Produce(t) => ProduceStep(s, t)
    case Start(d) => StartStep(s, d)
    case Drain(d) => DrainStep(c, s, d)
  }

  /** The state after a whole run, or None when one of its actions is not possible. */
  function Run(c: Listeners, run: seq<Action>): Option<State> {
    if run == [] then Some(INIT)
    else
      var before := Run(c, run[..|run| - 1]);
      if before.None? then None else Step(c, before.value, run[|run| - 1])
  }

  // ---------------------------------------------------------------------------------------------
  // What should be delivered
  // ---------------------------------------------------------------------------------------------

  /** The calls of the first `k` listeners with `m`, in registration order. */
  function Calls(m: Msg, k: nat): seq<Delivery> {
    seq(k, (i: nat) => Delivery(m, i))
  }

  /** The first `n` messages of `ms`, in order, each once to every listener of its type. */
  function AllCalls(c: Listeners, ms: seq<Msg>, n: nat): seq<Delivery>
    requires n <= |ms|
  {
    if n == 0 then [] else AllCalls(c, ms, n - 1) + Calls(ms[n - 1], Count(c, ms[n - 1].etype))
  }

  /** What the first messages ask for does not depend on later ones. */
  lemma {:induction false} AllCallsOfPrefix(c: Listeners, ms: seq<Msg>, more: seq<Msg>, n: nat)
    requires n <= |ms|
    ensures AllCalls(c, ms + more, n) == AllCalls(c, ms, n)
  {
    if n == 0 {
    } else {
      AllCallsOfPrefix(c, ms, more, n - 1);
    }
  }

  // ---------------------------------------------------------------------------------------------
  // The invariant
  // ---------------------------------------------------------------------------------------------

  predicate Opening(pc: ProducerPc) { pc.FirstPtr? || pc.FirstTail? || pc.FirstHead? || pc.Retask? }

  predicate Private(pc: ProducerPc) { pc.Allocated? || pc.Locked? }

  predicate ProducerLocks(pc: ProducerPc) { !pc.Allocated? && !pc.Retask? }

  predicate LockingPoint(at: Point) { at.Recheck? || at.ClearedPtr? || at.ClearedTail? || at.Unlock? }

  predicate DrainLocks(pc: DrainPc) { pc.ResetUnlock? || (pc.OnNode? && LockingPoint(pc.at)) }

  /** A drain task between being started and having reset the list. */
  predicate Active(pc: DrainPc) { pc.ReadHead? || pc.OnNode? || pc.Leaving? }

  /** A drain task whose node nobody else may reach. */
  predicate Retired(pc: DrainPc) { pc.Leaving? || pc.ResetUnlock? || pc.ResetReadNext? || pc.ResetLeaving? }

  /** An active drain task that has moved the message out of its node and not yet left it. */
  predicate Emptied(pc: DrainPc) { pc.OnNode? && !pc.at.Test? }

  predicate InvToken(s: State) {
    && s.posted == (if s.token.Posted? then 1 else 0)
    && (forall t <- s.producers :: Opening(s.producers[t]) <==> s.token == WithProducer(t))
    && (s.token.WithProducer? ==> s.token.t in s.producers)
    && (forall d <- s.drains :: Active(s.drains[d]) <==> s.token == WithDrain(d))
    && (s.token.WithDrain? ==> s.token.d in s.drains)
  }

  predicate InvLock(s: State) {
    && (forall t <- s.producers :: ProducerLocks(s.producers[t]) <==> s.lock == ByProducer(t))
    && (s.lock.ByProducer? ==> s.lock.t in s.producers)
    && (forall d <- s.drains :: DrainLocks(s.drains[d]) <==> s.lock == ByDrain(d))
    && (s.lock.ByDrain? ==> s.lock.d in s.drains)
  }

  predicate Empty(s: State) { s.popped == |s.links| }

  /** The address that follows the `k`-th linked node. */
  function After(links: seq<Addr>, k: nat): Addr {
    if k + 1 < |links| then links[k + 1] else 0
  }

  /** The nodes not yet left behind are alive, in the list and linked to one another in order. */
  predicate InvChain(s: State) {
    && s.popped <= |s.links|
    && (Empty(s) <==> s.token == NoList)
    && 0 !in s.heap
    && (forall k :: s.popped <= k < |s.links| ==>
          s.links[k] in s.heap && s.heap[s.links[k]].owner == InList(k))
    && (forall k: nat {:trigger After(s.links, k)} :: s.popped <= k < |s.links| ==>
          s.heap[s.links[k]].next == After(s.links, k))
  }

  predicate Settled(s: State) {
    if Empty(s) then s.tail == 0 && s.tailPtr == 0 && s.head == 0
    else s.links != [] && s.tail == s.links[|s.links| - 1] && s.tailPtr == s.tail
  }

  /** `item` is linked last and is not the only node of the list. */
  predicate Appended(s: State, item: Addr) {
    s.popped + 2 <= |s.links| && s.links[|s.links| - 1] == item
  }

  /** `item` is the only node of the list. */
  predicate Single(s: State, item: Addr) {
    s.popped + 1 == |s.links| && s.links[s.popped] == item
  }

  predicate MidProducer(s: State, pc: ProducerPc) {
    match pc
    case FirstPtr(item) => Single(s, item) && s.tailPtr == item && s.tail == 0
    case FirstTail(item) => Single(s, item) && s.tailPtr == item && s.tail == item
    case FirstHead(item) => Single(s, item) && Settled(s)
    case LinkedNext(item) => Appended(s, item) && s.tail == s.tailPtr == s.links[|s.links| - 2]
    case MovedTail(item) => Appended(s, item) && s.tail == item && s.tailPtr == s.links[|s.links| - 2]
    case _ => Settled(s)
  }

  predicate MidDrain(s: State, pc: DrainPc) {
    if pc.OnNode? && pc.at.ClearedPtr? then Single(s, pc.node) && s.tailPtr == 0 && s.tail == pc.node
    else if pc.OnNode? && pc.at.ClearedTail? then Single(s, pc.node) && s.tailPtr == 0 && s.tail == 0
    else Settled(s)
  }

  predicate InvPtrs(s: State)
    requires InvLock(s)
  {
    match s.lock
    case Free => Settled(s)
    case ByProducer(t) => MidProducer(s, s.producers[t])
    case ByDrain(d) => MidDrain(s, s.drains[d])
  }

  /** m_head leads to the list from the moment the producer has set it until the drain task reads it. */
  predicate InvHead(s: State)
    requires InvToken(s)
  {
    var pointed :=
      match s.token
      case NoList => false
      case WithProducer(t) => s.producers[t].FirstHead? || s.producers[t].Retask?
      case Posted => true
      case WithDrain(d) => s.drains[d].ReadHead?;
    pointed ==> s.popped < |s.links| && s.head == s.links[s.popped]
  }

  predicate ProducerOwns(s: State, t: nat, pc: ProducerPc) {
    Private(pc) ==> pc.item in s.heap && s.heap[pc.item].owner == OfProducer(t) && s.heap[pc.item].next == 0
                    && s.heap[pc.item].ptr.Some?
  }

  /** `a` is the first node of the list that has not been left behind. */
  predicate AtFront(s: State, a: Addr) { s.popped < |s.links| && a == s.links[s.popped] }

  predicate DrainOwns(s: State, d: nat, pc: DrainPc) {
    && (Retired(pc) ==> pc.node in s.heap && s.heap[pc.node].owner == OfDrain(d))
    && (pc.ResetUnlock? || pc.ResetReadNext? ==> s.heap[pc.node].next == 0)
    && (pc.ResetLeaving? ==> pc.next == 0)
  }

  /** Where the active drain task stands in the list. */
  predicate InvActive(s: State)
    requires InvToken(s)
  {
    s.token.WithDrain? ==>
      match s.drains[s.token.d]
      case OnNode(node, at) => AtFront(s, node) && (at.Unlock? || at.ReadNext? ==> s.tailPtr != node)
      case Leaving(_, next) => AtFront(s, next)
      case _ => true
  }

  predicate InvOwn(s: State) {
    && (forall t <- s.producers :: ProducerOwns(s, t, s.producers[t]))
    && (forall d <- s.drains :: DrainOwns(s, d, s.drains[d]))
  }

  /** Every live node can still be reached by somebody. */
  predicate InvNoLeak(s: State) {
    forall a <- s.heap ::
      match s.heap[a].owner
      case InList(k) => s.popped <= k < |s.links| && s.links[k] == a
      case OfProducer(t) => t in s.producers && Private(s.producers[t]) && s.producers[t].item == a
      case OfDrain(d) => d in s.drains && Retired(s.drains[d]) && s.drains[d].node == a
  }

  predicate PendingLocked(s: State) {
    s.lock.ByProducer? && s.lock.t in s.producers && s.producers[s.lock.t].Locked?
  }

  /** What the active drain task is doing with the message it has moved out of the front node; all
      points after the calls count as TestTail. */
  function FrontPoint(s: State): Option<Point> {
    if s.token.WithDrain? && s.token.d in s.drains && Emptied(s.drains[s.token.d]) then
      Some(if s.drains[s.token.d].at.Inform? then s.drains[s.token.d].at else TestTail)
    else None
  }

  /** The list holds, in order, the messages enqueued and not yet left behind. */
  predicate InvMsgs(s: State) {
    && |s.enq| == |s.links| + (if PendingLocked(s) then 1 else 0)
    && (forall k :: s.popped <= k < |s.links| && (k == s.popped ==> FrontPoint(s).None?) ==>
          s.links[k] in s.heap && s.heap[s.links[k]].ptr == Some(s.enq[k]))
    && (PendingLocked(s) ==>
          var item := s.producers[s.lock.t].item;
          item in s.heap && s.heap[item].ptr == Some(s.enq[|s.enq| - 1]))
  }

  /** What has been delivered: all messages left behind, and what the active drain task has done for its own. */
  predicate InvLog(c: Listeners, s: State)
    requires s.popped <= |s.enq|
  {
    match FrontPoint(s)
    case None => s.log == AllCalls(c, s.enq, s.popped)
    case Some(at) =>
      && s.popped < |s.enq|
      && if at.Inform? then
           at.msg == s.enq[s.popped] && at.k <= Count(c, at.msg.etype) &&
           s.log == AllCalls(c, s.enq, s.popped) + Calls(at.msg, at.k)
         else s.log == AllCalls(c, s.enq, s.popped + 1)
  }

  /** Every accepted message is held by one producer or enqueued once. */
  predicate InvOnce(s: State) {
    && (forall m <- s.accepted ::
          match s.accepted[m]
          case Held(t) => t in s.producers && s.producers[t].Allocated? && s.producers[t].item in s.heap
                          && s.heap[s.producers[t].item].ptr == Some(m)
          case Enqueued(k) => k < |s.enq| && s.enq[k] == m)
    && (forall k :: 0 <= k < |s.enq| ==> s.enq[k] in s.accepted && s.accepted[s.enq[k]] == Enqueued(k))
    && (forall t <- s.producers :: s.producers[t].Allocated? ==>
          var item := s.producers[t].item;
          item in s.heap && s.heap[item].ptr.Some? && s.heap[item].ptr.value in s.accepted
          && s.accepted[s.heap[item].ptr.value] == Held(t))
  }

  /** The shape of the list and the positions of all threads. */
  predicate InvShape(s: State) {
    InvToken(s) && InvLock(s) && InvChain(s) && InvPtrs(s) && InvHead(s) && InvOwn(s) && InvActive(s)
  }

  /** What the nodes hold and what has been delivered. */
  predicate InvContent(c: Listeners, s: State) {
    InvMsgs(s) && s.popped <= |s.enq| && InvLog(c, s)
  }

  predicate Inv(c: Listeners, s: State) {
    InvShape(s) && InvNoLeak(s) && InvOnce(s) && InvContent(c, s) && !s.fault
  }

  // ---------------------------------------------------------------------------------------------
  // Every step keeps the invariant
  // ---------------------------------------------------------------------------------------------

  lemma StaysAtFront(s: State, d: nat, at: Point, log: seq<Delivery>)
    requires InvShape(s) && d in s.drains && s.drains[d].OnNode?
    requires !LockingPoint(s.drains[d].at) && !s.drains[d].at.ReadNext? && !LockingPoint(at) && !at.ReadNext?
    ensures InvShape(s.(drains := s.drains[d := OnNode(s.drains[d].node, at)], log := log))
  {
  }

  /** Most steps only move a thread on and write one of the three pointers. */
  predicate Quiet(s: State, s': State) {
    && s'.heap == s.heap && s'.links == s.links && s'.popped == s.popped && s'.enq == s.enq && s'.log == s.log
    && s'.fault == s.fault
    && (forall t <- s.producers :: Private(s.producers[t]) ==> t in s'.producers && s'.producers[t] == s.producers[t])
    && (forall d <- s.drains :: Retired(s.drains[d]) ==>
          d in s'.drains && Retired(s'.drains[d]) && s'.drains[d].node == s.drains[d].node)
    && PendingLocked(s') == PendingLocked(s) && (PendingLocked(s) ==> s'.lock == s.lock)
    && FrontPoint(s') == FrontPoint(s)
  }

  lemma QuietKeeps(c: Listeners, s: State, s': State)
    requires Quiet(s, s') && InvNoLeak(s) && InvContent(c, s) && !s.fault
    ensures InvNoLeak(s') && InvContent(c, s') && !s'.fault
  {
  }

  lemma LinksTakesMessage(s: State, a: Addr)
    requires InvShape(s) && a in s.heap && s.heap[a].owner.InList?
    ensures var s' := s.(heap := s.heap[a := s.heap[a].(ptr := None)]);
      InvToken(s') && InvLock(s') && InvChain(s') && InvOwn(s')
  {
  }

  /** Moving the message out of a linked node disturbs no link. */
  lemma TakesMessage(s: State, a: Addr)
    requires InvShape(s) && a in s.heap && s.heap[a].owner.InList?
    ensures InvShape(s.(heap := s.heap[a := s.heap[a].(ptr := None)]))
  {
    LinksTakesMessage(s, a);
  }

  /** The tail pointer seen without the mutex: when it is not the drain task's node, the next node is linked. */
  lemma NextIsLinked(s: State)
    requires InvShape(s) && s.token.WithDrain?
    requires var pc := s.drains[s.token.d];
      pc.OnNode? && !pc.at.ClearedPtr? && !pc.at.ClearedTail? && s.tailPtr != pc.node
    ensures s.popped + 1 < |s.links| && s.heap[s.links[s.popped]].next == s.links[s.popped + 1] &&
      s.tail != s.links[s.popped]
  {
    var pc := s.drains[s.token.d];
    match s.lock {
      case Free => assert Settled(s);
      case ByProducer(t) => assert !Opening(s.producers[t]);
      case ByDrain(d) => assert d != s.token.d ==> !Active(s.drains[d]);
    }
    assert After(s.links, s.popped) == s.links[s.popped + 1];
  }

  lemma ShapeFirstPtr(s: State, t: nat)
    requires InvShape(s) && t in s.producers && s.producers[t].FirstPtr?
    ensures var s' := ProduceStep(s, t).value; InvShape(s') && Quiet(s, s')
  {
  }

  lemma ShapeFirstTail(s: State, t: nat)
    requires InvShape(s) && t in s.producers && s.producers[t].FirstTail?
    ensures var s' := ProduceStep(s, t).value; InvShape(s') && Quiet(s, s')
  {
  }

  lemma ShapeFirstHead(s: State, t: nat)
    requires InvShape(s) && t in s.producers && s.producers[t].FirstHead?
    ensures var s' := ProduceStep(s, t).value; InvShape(s') && Quiet(s, s')
  {
  }

  lemma QuietRetask(s: State, t: nat)
    requires InvToken(s) && InvLock(s) && t in s.producers && s.producers[t].Retask?
    ensures var s' := ProduceStep(s, t).value; Quiet(s, s')
  {
  }

  lemma ShapeRetask(s: State, t: nat)
    requires InvShape(s) && t in s.producers && s.producers[t].Retask?
    ensures var s' := ProduceStep(s, t).value; InvShape(s') && Quiet(s, s')
  {
    QuietRetask(s, t);
  }

  lemma QuietLinkedNext(s: State, t: nat)
    requires InvToken(s) && InvLock(s) && t in s.producers && s.producers[t].LinkedNext?
    ensures var s' := ProduceStep(s, t).value; Quiet(s, s')
  {
  }

  lemma ShapeLinkedNext(s: State, t: nat)
    requires InvShape(s) && t in s.producers && s.producers[t].LinkedNext?
    ensures var s' := ProduceStep(s, t).value; InvShape(s') && Quiet(s, s')
  {
    QuietLinkedNext(s, t);
  }

  lemma QuietMovedTail(s: State, t: nat)
    requires InvToken(s) && InvLock(s) && t in s.producers && s.producers[t].MovedTail?
    ensures var s' := ProduceStep(s, t).value; Quiet(s, s')
  {
  }

  lemma ShapeMovedTail(s: State, t: nat)
    requires InvShape(s) && t in s.producers && s.producers[t].MovedTail?
    ensures var s' := ProduceStep(s, t).value; InvShape(s') && Quiet(s, s')
  {
    QuietMovedTail(s, t);
  }

  lemma QuietMovedPtr(s: State, t: nat)
    requires InvToken(s) && InvLock(s) && t in s.producers && s.producers[t].MovedPtr?
    ensures var s' := ProduceStep(s, t).value; Quiet(s, s')
  {
  }

  lemma ShapeMovedPtr(s: State, t: nat)
    requires InvShape(s) && t in s.producers && s.producers[t].MovedPtr?
    ensures var s' := ProduceStep(s, t).value; InvShape(s') && Quiet(s, s')
  {
    QuietMovedPtr(s, t);
  }

  lemma LinksAllocated(s: State, t: nat)
    requires InvShape(s) && t in s.producers && s.producers[t].Allocated? && s.lock == Free
    ensures var s' := ProduceStep(s, t).value; InvToken(s') && InvLock(s') && InvChain(s') && InvOwn(s')
  {
  }

  lemma ShapeAllocated(s: State, t: nat)
    requires InvShape(s) && t in s.producers && s.producers[t].Allocated? && s.lock == Free
    ensures var s' := ProduceStep(s, t).value; InvShape(s')
  {
    LinksAllocated(s, t);
  }

  lemma NoLeakAllocated(s: State, t: nat)
    requires InvShape(s) && InvNoLeak(s) && t in s.producers && s.producers[t].Allocated? && s.lock == Free
    ensures var s' := ProduceStep(s, t).value; InvNoLeak(s')
  {
  }

  lemma ContentAllocated(c: Listeners, s: State, t: nat)
    requires InvShape(s) && InvContent(c, s) && t in s.producers && s.producers[t].Allocated? && s.lock == Free
    ensures var s' := ProduceStep(s, t).value; InvContent(c, s') && s'.fault == s.fault
  {
    var more := [s.heap[s.producers[t].item].ptr.value];
    AllCallsOfPrefix(c, s.enq, more, s.popped);
    if s.popped < |s.enq| {
      AllCallsOfPrefix(c, s.enq, more, s.popped + 1);
    }
  }

  lemma ShapeLockedEmpty(s: State, t: nat)
    requires InvShape(s) && t in s.producers && s.producers[t].Locked? && s.tailPtr == 0
    ensures var s' := ProduceStep(s, t).value; InvShape(s')
  {
  }

  lemma NoLeakLockedEmpty(s: State, t: nat)
    requires InvShape(s) && InvNoLeak(s) && t in s.producers && s.producers[t].Locked? && s.tailPtr == 0
    ensures var s' := ProduceStep(s, t).value; InvNoLeak(s')
  {
  }

  lemma ContentLockedEmpty(c: Listeners, s: State, t: nat)
    requires InvShape(s) && InvContent(c, s) && t in s.producers && s.producers[t].Locked? && s.tailPtr == 0
    ensures var s' := ProduceStep(s, t).value; InvContent(c, s') && s'.fault == s.fault
  {
  }

  lemma ChainLockedLinked(s: State, t: nat)
    requires InvShape(s) && t in s.producers && s.producers[t].Locked? && s.tailPtr != 0
    ensures var s' := ProduceStep(s, t).value; InvChain(s')
  {
    var s' := ProduceStep(s, t).value;
    assert s.tail == s.links[|s.links| - 1] && s.heap[s.tail].next == After(s.links, |s.links| - 1);
    forall k: nat | s.popped <= k < |s.links| - 1 ensures After(s'.links, k) == After(s.links, k) {}
  }

  lemma OwnsLockedLinked(s: State, t: nat)
    requires InvShape(s) && t in s.producers && s.producers[t].Locked? && s.tailPtr != 0
    ensures var s' := ProduceStep(s, t).value; InvOwn(s')
  {
  }

  lemma LinksLockedLinked(s: State, t: nat)
    requires InvShape(s) && t in s.producers && s.producers[t].Locked? && s.tailPtr != 0
    ensures var s' := ProduceStep(s, t).value; InvToken(s') && InvLock(s') && InvChain(s') && InvOwn(s')
  {
    ChainLockedLinked(s, t);
    OwnsLockedLinked(s, t);
  }

  lemma ShapeLockedLinked(s: State, t: nat)
    requires InvShape(s) && t in s.producers && s.producers[t].Locked? && s.tailPtr != 0
    ensures var s' := ProduceStep(s, t).value; InvShape(s')
  {
    LinksLockedLinked(s, t);
  }

  lemma NoLeakLockedLinked(s: State, t: nat)
    requires InvShape(s) && InvNoLeak(s) && t in s.producers && s.producers[t].Locked? && s.tailPtr != 0
    ensures var s' := ProduceStep(s, t).value; InvNoLeak(s')
  {
  }

  lemma ContentLockedLinked(c: Listeners, s: State, t: nat)
    requires InvShape(s) && InvContent(c, s) && t in s.producers && s.producers[t].Locked? && s.tailPtr != 0
    ensures var s' := ProduceStep(s, t).value; InvContent(c, s') && s'.fault == s.fault
  {
    LinkingMovesNothing(s, t);
    MsgsLockedLinked(s, t);
  }

  /** Linking a node moves no message. */
  lemma LinkingMovesNothing(s: State, t: nat)
    requires InvShape(s) && t in s.producers && s.producers[t].Locked? && s.tailPtr != 0
    ensures var s' := ProduceStep(s, t).value;
      && s'.links == s.links + [s.producers[t].item] && s'.enq == s.enq && s'.popped == s.popped
      && PendingLocked(s) && s.lock.t == t && !PendingLocked(s') && FrontPoint(s') == FrontPoint(s)
      && forall a <- s.heap :: a in s'.heap && s'.heap[a].ptr == s.heap[a].ptr
  {
  }

  lemma MsgsLockedLinked(s: State, t: nat)
    requires InvShape(s) && InvMsgs(s) && t in s.producers && s.producers[t].Locked? && s.tailPtr != 0
    ensures InvMsgs(ProduceStep(s, t).value)
  {
    LinkingMovesNothing(s, t);
    var s' := ProduceStep(s, t).value;
    forall k | s.popped <= k < |s'.links| && (k == s.popped ==> FrontPoint(s').None?)
      ensures s'.links[k] in s'.heap && s'.heap[s'.links[k]].ptr == Some(s.enq[k])
    {
      assert s'.links[k] in s.heap;
    }
  }

  lemma QuietReadHead(c: Listeners, s: State, d: nat)
    requires InvToken(s) && InvLock(s) && d in s.drains && s.drains[d].ReadHead?
    ensures var s' := DrainStep(c, s, d).value; Quiet(s, s')
  {
  }

  lemma LinksReadHead(c: Listeners, s: State, d: nat)
    requires InvShape(s) && d in s.drains && s.drains[d].ReadHead?
    ensures var s' := DrainStep(c, s, d).value; InvToken(s') && InvLock(s') && InvChain(s') && InvOwn(s')
  {
  }

  lemma ShapeReadHead(c: Listeners, s: State, d: nat)
    requires InvShape(s) && d in s.drains && s.drains[d].ReadHead?
    ensures var s' := DrainStep(c, s, d).value; InvShape(s') && Quiet(s, s')
  {
    LinksReadHead(c, s, d);
    QuietReadHead(c, s, d);
  }

  lemma ShapeTest(c: Listeners, s: State, d: nat)
    requires InvShape(s) && d in s.drains && s.drains[d].OnNode? && s.drains[d].at.Test? &&
      s.heap[s.links[s.popped]].ptr.Some?
    ensures var s' := DrainStep(c, s, d).value; InvShape(s')
  {
    var node := s.drains[d].node;
    TakesMessage(s, node);
    StaysAtFront(s.(heap := s.heap[node := s.heap[node].(ptr := None)]), d, Inform(s.heap[node].ptr.value, 0), s.log);
  }

  lemma NoLeakTest(c: Listeners, s: State, d: nat)
    requires InvShape(s) && InvNoLeak(s) && d in s.drains && s.drains[d].OnNode? && s.drains[d].at.Test? &&
      s.heap[s.links[s.popped]].ptr.Some?
    ensures var s' := DrainStep(c, s, d).value; InvNoLeak(s')
  {
  }

  lemma ContentTest(c: Listeners, s: State, d: nat)
    requires InvShape(s) && InvContent(c, s) && d in s.drains && s.drains[d].OnNode? && s.drains[d].at.Test?
    ensures var s' := DrainStep(c, s, d).value; InvContent(c, s') && s'.fault == s.fault
  {
  }

  lemma ShapeInformCall(c: Listeners, s: State, d: nat)
    requires InvShape(s) && d in s.drains && s.drains[d].OnNode? && s.drains[d].at.Inform? &&
      s.drains[d].at.k < Count(c, s.drains[d].at.msg.etype)
    ensures var s' := DrainStep(c, s, d).value; InvShape(s')
  {
    var OnNode(node, Inform(msg, k)) := s.drains[d];
    var log := s.log + [Delivery(msg, k)];
    assert DrainStep(c, s, d) == Some(s.(log := log, drains := s.drains[d := OnNode(node, Inform(msg, k + 1))]));
    StaysAtFront(s, d, Inform(msg, k + 1), log);
  }

  lemma NoLeakInformCall(c: Listeners, s: State, d: nat)
    requires InvShape(s) && InvNoLeak(s) && d in s.drains && s.drains[d].OnNode? && s.drains[d].at.Inform? &&
      s.drains[d].at.k < Count(c, s.drains[d].at.msg.etype)
    ensures var s' := DrainStep(c, s, d).value; InvNoLeak(s')
  {
  }

  lemma ContentInformCall(c: Listeners, s: State, d: nat)
    requires InvShape(s) && InvContent(c, s) && d in s.drains && s.drains[d].OnNode? && s.drains[d].at.Inform? &&
      s.drains[d].at.k < Count(c, s.drains[d].at.msg.etype)
    ensures var s' := DrainStep(c, s, d).value; InvContent(c, s') && s'.fault == s.fault
  {
    var Inform(msg, k) := s.drains[d].at;
    assert Calls(msg, k + 1) == Calls(msg, k) + [Delivery(msg, k)];
  }

  lemma ShapeInformDone(c: Listeners, s: State, d: nat)
    requires InvShape(s) && d in s.drains && s.drains[d].OnNode? && s.drains[d].at.Inform? &&
      s.drains[d].at.k >= Count(c, s.drains[d].at.msg.etype)
    ensures var s' := DrainStep(c, s, d).value; InvShape(s')
  {
    StaysAtFront(s, d, TestTail, s.log);
  }

  lemma NoLeakInformDone(c: Listeners, s: State, d: nat)
    requires InvShape(s) && InvNoLeak(s) && d in s.drains && s.drains[d].OnNode? && s.drains[d].at.Inform? &&
      s.drains[d].at.k >= Count(c, s.drains[d].at.msg.etype)
    ensures var s' := DrainStep(c, s, d).value; InvNoLeak(s')
  {
  }

  lemma ContentInformDone(c: Listeners, s: State, d: nat)
    requires InvShape(s) && InvContent(c, s) && d in s.drains && s.drains[d].OnNode? && s.drains[d].at.Inform? &&
      s.drains[d].at.k >= Count(c, s.drains[d].at.msg.etype)
    ensures var s' := DrainStep(c, s, d).value; InvContent(c, s') && s'.fault == s.fault
  {
  }

  lemma ShapeTestTailLast(c: Listeners, s: State, d: nat)
    requires InvShape(s) && d in s.drains && s.drains[d].OnNode? && s.drains[d].at.TestTail? &&
      s.tailPtr == s.drains[d].node
    ensures var s' := DrainStep(c, s, d).value; InvShape(s') && Quiet(s, s')
  {
    StaysAtFront(s, d, WantLock, s.log);
  }

  lemma QuietTestTailOn(c: Listeners, s: State, d: nat)
    requires InvToken(s) && InvLock(s) && d in s.drains && s.drains[d].OnNode? && s.drains[d].at.TestTail? &&
      s.tailPtr != s.drains[d].node
    ensures var s' := DrainStep(c, s, d).value; Quiet(s, s')
  {
  }

  lemma LinksTestTailOn(c: Listeners, s: State, d: nat)
    requires InvShape(s) && d in s.drains && s.drains[d].OnNode? && s.drains[d].at.TestTail? &&
      s.tailPtr != s.drains[d].node
    ensures var s' := DrainStep(c, s, d).value; InvToken(s') && InvLock(s') && InvChain(s') && InvOwn(s')
  {
  }

  lemma ShapeTestTailOn(c: Listeners, s: State, d: nat)
    requires InvShape(s) && d in s.drains && s.drains[d].OnNode? && s.drains[d].at.TestTail? &&
      s.tailPtr != s.drains[d].node
    ensures var s' := DrainStep(c, s, d).value; InvShape(s') && Quiet(s, s')
  {
    LinksTestTailOn(c, s, d);
    QuietTestTailOn(c, s, d);
  }

  lemma ShapeWantLock(c: Listeners, s: State, d: nat)
    requires InvShape(s) && d in s.drains && s.drains[d].OnNode? && s.drains[d].at.WantLock? && s.lock == Free
    ensures var s' := DrainStep(c, s, d).value; InvShape(s') && Quiet(s, s')
  {
  }

  lemma ShapeRecheckReset(c: Listeners, s: State, d: nat)
    requires InvShape(s) && d in s.drains && s.drains[d].OnNode? && s.drains[d].at.Recheck? &&
      s.tailPtr == s.drains[d].node
    ensures var s' := DrainStep(c, s, d).value; InvShape(s') && Quiet(s, s')
  {
  }

  lemma ShapeRecheckOn(c: Listeners, s: State, d: nat)
    requires InvShape(s) && d in s.drains && s.drains[d].OnNode? && s.drains[d].at.Recheck? &&
      s.tailPtr != s.drains[d].node
    ensures var s' := DrainStep(c, s, d).value; InvShape(s') && Quiet(s, s')
  {
  }

  lemma ShapeClearedPtr(c: Listeners, s: State, d: nat)
    requires InvShape(s) && d in s.drains && s.drains[d].OnNode? && s.drains[d].at.ClearedPtr?
    ensures var s' := DrainStep(c, s, d).value; InvShape(s') && Quiet(s, s')
  {
  }

  lemma ShapeClearedTail(c: Listeners, s: State, d: nat)
    requires InvShape(s) && d in s.drains && s.drains[d].OnNode? && s.drains[d].at.ClearedTail?
    ensures var s' := DrainStep(c, s, d).value; InvShape(s')
  {
    assert s.heap[s.drains[d].node].next == After(s.links, s.popped);
  }

  lemma NoLeakClearedTail(c: Listeners, s: State, d: nat)
    requires InvShape(s) && InvNoLeak(s) && d in s.drains && s.drains[d].OnNode? && s.drains[d].at.ClearedTail?
    ensures var s' := DrainStep(c, s, d).value; InvNoLeak(s')
  {
  }

  lemma ContentClearedTail(c: Listeners, s: State, d: nat)
    requires InvShape(s) && InvContent(c, s) && d in s.drains && s.drains[d].OnNode? && s.drains[d].at.ClearedTail?
    ensures var s' := DrainStep(c, s, d).value; InvContent(c, s') && s'.fault == s.fault
  {
  }

  lemma QuietUnlock(c: Listeners, s: State, d: nat)
    requires InvToken(s) && InvLock(s) && d in s.drains && s.drains[d].OnNode? && s.drains[d].at.Unlock?
    ensures var s' := DrainStep(c, s, d).value; Quiet(s, s')
  {
  }

  lemma ShapeUnlock(c: Listeners, s: State, d: nat)
    requires InvShape(s) && d in s.drains && s.drains[d].OnNode? && s.drains[d].at.Unlock?
    ensures var s' := DrainStep(c, s, d).value; InvShape(s') && Quiet(s, s')
  {
    QuietUnlock(c, s, d);
  }

  lemma OwnsReadNext(c: Listeners, s: State, d: nat)
    requires InvShape(s) && d in s.drains && s.drains[d].OnNode? && s.drains[d].at.ReadNext?
    ensures var s' := DrainStep(c, s, d).value; InvToken(s') && InvLock(s') && InvOwn(s')
  {
  }

  lemma LinksReadNext(c: Listeners, s: State, d: nat)
    requires InvShape(s) && d in s.drains && s.drains[d].OnNode? && s.drains[d].at.ReadNext?
    ensures var s' := DrainStep(c, s, d).value; InvToken(s') && InvLock(s') && InvChain(s') && InvOwn(s')
  {
    NextIsLinked(s);
    OwnsReadNext(c, s, d);
  }

  lemma ShapeReadNext(c: Listeners, s: State, d: nat)
    requires InvShape(s) && d in s.drains && s.drains[d].OnNode? && s.drains[d].at.ReadNext?
    ensures var s' := DrainStep(c, s, d).value; InvShape(s')
  {
    NextIsLinked(s);
    LinksReadNext(c, s, d);
  }

  lemma NoLeakReadNext(c: Listeners, s: State, d: nat)
    requires InvShape(s) && InvNoLeak(s) && d in s.drains && s.drains[d].OnNode? && s.drains[d].at.ReadNext?
    ensures var s' := DrainStep(c, s, d).value; InvNoLeak(s')
  {
  }

  lemma ContentReadNext(c: Listeners, s: State, d: nat)
    requires InvShape(s) && InvContent(c, s) && d in s.drains && s.drains[d].OnNode? && s.drains[d].at.ReadNext?
    ensures var s' := DrainStep(c, s, d).value; InvContent(c, s') && s'.fault == s.fault
  {
    var s' := DrainStep(c, s, d).value;
    assert InvMsgs(s') && s'.fault == s.fault by { MsgsReadNext(c, s, d); }
    assert InvLog(c, s') by { LogReadNext(c, s, d); }
  }

  lemma MsgsReadNext(c: Listeners, s: State, d: nat)
    requires InvShape(s) && InvMsgs(s) && s.popped <= |s.enq| && d in s.drains && s.drains[d].OnNode? &&
      s.drains[d].at.ReadNext?
    ensures var s' := DrainStep(c, s, d).value; InvMsgs(s') && s'.popped <= |s'.enq| && s'.fault == s.fault
  {
  }

  lemma LogReadNext(c: Listeners, s: State, d: nat)
    requires InvShape(s) && InvMsgs(s) && InvLog(c, s) && s.popped <= |s.enq|
    requires d in s.drains && s.drains[d].OnNode? && s.drains[d].at.ReadNext?
    ensures var s' := DrainStep(c, s, d).value; s'.popped <= |s'.enq| && InvLog(c, s')
  {
    MsgsReadNext(c, s, d);
  }

  lemma LinksLeaving(c: Listeners, s: State, d: nat)
    requires InvShape(s) && d in s.drains && s.drains[d].Leaving?
    ensures var s' := DrainStep(c, s, d).value; InvToken(s') && InvLock(s') && InvChain(s') && InvOwn(s')
  {
  }

  lemma ShapeLeaving(c: Listeners, s: State, d: nat)
    requires InvShape(s) && d in s.drains && s.drains[d].Leaving?
    ensures var s' := DrainStep(c, s, d).value; InvShape(s')
  {
    LinksLeaving(c, s, d);
  }

  lemma NoLeakLeaving(c: Listeners, s: State, d: nat)
    requires InvShape(s) && InvNoLeak(s) && d in s.drains && s.drains[d].Leaving?
    ensures var s' := DrainStep(c, s, d).value; InvNoLeak(s')
  {
  }

  lemma ContentLeaving(c: Listeners, s: State, d: nat)
    requires InvShape(s) && InvContent(c, s) && d in s.drains && s.drains[d].Leaving?
    ensures var s' := DrainStep(c, s, d).value; InvContent(c, s') && s'.fault == s.fault
  {
  }

  lemma QuietResetUnlock(c: Listeners, s: State, d: nat)
    requires InvToken(s) && InvLock(s) && d in s.drains && s.drains[d].ResetUnlock?
    ensures var s' := DrainStep(c, s, d).value; Quiet(s, s')
  {
  }

  lemma ShapeResetUnlock(c: Listeners, s: State, d: nat)
    requires InvShape(s) && d in s.drains && s.drains[d].ResetUnlock?
    ensures var s' := DrainStep(c, s, d).value; InvShape(s') && Quiet(s, s')
  {
    QuietResetUnlock(c, s, d);
  }

  lemma QuietResetReadNext(c: Listeners, s: State, d: nat)
    requires InvToken(s) && InvLock(s) && d in s.drains && s.drains[d].ResetReadNext? && s.drains[d].node in s.heap
    ensures var s' := DrainStep(c, s, d).value; Quiet(s, s')
  {
  }

  lemma LinksResetReadNext(c: Listeners, s: State, d: nat)
    requires InvShape(s) && d in s.drains && s.drains[d].ResetReadNext?
    ensures var s' := DrainStep(c, s, d).value; InvToken(s') && InvLock(s') && InvChain(s') && InvOwn(s')
  {
  }

  lemma ShapeResetReadNext(c: Listeners, s: State, d: nat)
    requires InvShape(s) && d in s.drains && s.drains[d].ResetReadNext?
    ensures var s' := DrainStep(c, s, d).value; InvShape(s') && Quiet(s, s')
  {
    LinksResetReadNext(c, s, d);
    QuietResetReadNext(c, s, d);
  }

  lemma OwnsResetLeaving(c: Listeners, s: State, d: nat)
    requires InvShape(s) && d in s.drains && s.drains[d].ResetLeaving?
    ensures var s' := DrainStep(c, s, d).value; InvToken(s') && InvLock(s') && InvOwn(s')
  {
  }

  lemma LinksResetLeaving(c: Listeners, s: State, d: nat)
    requires InvShape(s) && d in s.drains && s.drains[d].ResetLeaving?
    ensures var s' := DrainStep(c, s, d).value; InvToken(s') && InvLock(s') && InvChain(s') && InvOwn(s')
  {
    OwnsResetLeaving(c, s, d);
  }

  lemma ShapeResetLeaving(c: Listeners, s: State, d: nat)
    requires InvShape(s) && d in s.drains && s.drains[d].ResetLeaving?
    ensures var s' := DrainStep(c, s, d).value; InvShape(s')
  {
    LinksResetLeaving(c, s, d);
  }

  lemma NoLeakResetLeaving(c: Listeners, s: State, d: nat)
    requires InvShape(s) && InvNoLeak(s) && d in s.drains && s.drains[d].ResetLeaving?
    ensures var s' := DrainStep(c, s, d).value; InvNoLeak(s')
  {
  }

  lemma ContentResetLeaving(c: Listeners, s: State, d: nat)
    requires InvShape(s) && InvContent(c, s) && d in s.drains && s.drains[d].ResetLeaving?
    ensures var s' := DrainStep(c, s, d).value; InvContent(c, s') && s'.fault == s.fault
  {
  }

  lemma QuietExit(c: Listeners, s: State, d: nat)
    requires InvToken(s) && InvLock(s) && d in s.drains && s.drains[d].Exit?
    ensures var s' := DrainStep(c, s, d).value; Quiet(s, s')
  {
  }

  lemma LinksExit(c: Listeners, s: State, d: nat)
    requires InvShape(s) && d in s.drains && s.drains[d].Exit?
    ensures var s' := DrainStep(c, s, d).value; InvToken(s') && InvLock(s') && InvChain(s') && InvOwn(s')
  {
  }

  lemma ShapeExit(c: Listeners, s: State, d: nat)
    requires InvShape(s) && d in s.drains && s.drains[d].Exit?
    ensures var s' := DrainStep(c, s, d).value; InvShape(s') && Quiet(s, s')
  {
    LinksExit(c, s, d);
    QuietExit(c, s, d);
  }

  lemma HoldersAddEvent(c: Listeners, s: State, t: nat, message: Option<Msg>, item: Addr)
    requires InvToken(s) && InvLock(s) && AddEventStep(c, s, t, message, item).Some?
    ensures var s' := AddEventStep(c, s, t, message, item).value; InvToken(s') && InvLock(s')
  {
  }

  lemma OwnsAddEvent(c: Listeners, s: State, t: nat, message: Option<Msg>, item: Addr)
    requires InvOwn(s) && AddEventStep(c, s, t, message, item).Some?
    ensures InvOwn(AddEventStep(c, s, t, message, item).value)
  {
    var s' := AddEventStep(c, s, t, message, item).value;
    forall u <- s'.producers ensures ProducerOwns(s', u, s'.producers[u]) {
      assert u in s.producers ==> ProducerOwns(s, u, s.producers[u]);
    }
    forall d <- s'.drains ensures DrainOwns(s', d, s'.drains[d]) {
      assert DrainOwns(s, d, s.drains[d]);
    }
  }

  lemma LinksAddEvent(c: Listeners, s: State, t: nat, message: Option<Msg>, item: Addr)
    requires InvShape(s) && AddEventStep(c, s, t, message, item).Some?
    ensures var s' := AddEventStep(c, s, t, message, item).value;
      InvToken(s') && InvLock(s') && InvChain(s') && InvOwn(s')
  {
    HoldersAddEvent(c, s, t, message, item);
    OwnsAddEvent(c, s, t, message, item);
  }

  lemma ShapeAddEvent(c: Listeners, s: State, t: nat, message: Option<Msg>, item: Addr)
    requires InvShape(s) && AddEventStep(c, s, t, message, item).Some?
    ensures InvShape(AddEventStep(c, s, t, message, item).value)
  {
    LinksAddEvent(c, s, t, message, item);
  }

  lemma NoLeakAddEvent(c: Listeners, s: State, t: nat, message: Option<Msg>, item: Addr)
    requires InvShape(s) && InvNoLeak(s) && AddEventStep(c, s, t, message, item).Some?
    ensures InvNoLeak(AddEventStep(c, s, t, message, item).value)
  {
  }

  lemma MsgsAddEvent(c: Listeners, s: State, t: nat, message: Option<Msg>, item: Addr)
    requires InvShape(s) && InvMsgs(s) && AddEventStep(c, s, t, message, item).Some?
    ensures InvMsgs(AddEventStep(c, s, t, message, item).value)
  {
    var s' := AddEventStep(c, s, t, message, item).value;
    assert FrontPoint(s') == FrontPoint(s) && PendingLocked(s') == PendingLocked(s);
  }

  lemma ContentAddEvent(c: Listeners, s: State, t: nat, message: Option<Msg>, item: Addr)
    requires InvShape(s) && InvContent(c, s) && AddEventStep(c, s, t, message, item).Some?
    ensures var s' := AddEventStep(c, s, t, message, item).value; InvContent(c, s') && s'.fault == s.fault
  {
    MsgsAddEvent(c, s, t, message, item);
  }

  lemma QuietStart(s: State, d: nat)
    requires InvToken(s) && StartStep(s, d).Some?
    ensures Quiet(s, StartStep(s, d).value)
  {
  }

  lemma LinksStart(s: State, d: nat)
    requires InvShape(s) && StartStep(s, d).Some?
    ensures var s' := StartStep(s, d).value; InvToken(s') && InvLock(s') && InvChain(s') && InvOwn(s')
  {
  }

  lemma ShapeStart(s: State, d: nat)
    requires InvShape(s) && StartStep(s, d).Some?
    ensures InvShape(StartStep(s, d).value)
  {
    LinksStart(s, d);
  }

  predicate QuietDrain(s: State, d: nat)
    requires d in s.drains
  {
    var pc := s.drains[d];
    || pc.ReadHead? || pc.ResetUnlock? || pc.Exit? || (pc.ResetReadNext? && pc.node in s.heap)
    || (pc.OnNode? && !pc.at.Test? && !pc.at.Inform? && !pc.at.ClearedTail? && !pc.at.ReadNext?)
  }

  predicate InvPart(c: Listeners, s: State) {
    InvShape(s) && InvNoLeak(s) && InvContent(c, s) && !s.fault
  }

  lemma ShapeQuietProduce(s: State, t: nat)
    requires InvShape(s) && ProduceStep(s, t).Some? && !Private(s.producers[t])
    ensures var s' := ProduceStep(s, t).value; InvShape(s') && Quiet(s, s')
  {
    match s.producers[t] {
      case FirstPtr(_) => ShapeFirstPtr(s, t);
      case FirstTail(_) => ShapeFirstTail(s, t);
      case FirstHead(_) => ShapeFirstHead(s, t);
      case Retask => ShapeRetask(s, t);
      case LinkedNext(_) => ShapeLinkedNext(s, t);
      case MovedTail(_) => ShapeMovedTail(s, t);
      case MovedPtr(_) => ShapeMovedPtr(s, t);
    }
  }

  lemma ShapeQuietDrain(c: Listeners, s: State, d: nat)
    requires InvShape(s) && DrainStep(c, s, d).Some? && QuietDrain(s, d)
    ensures var s' := DrainStep(c, s, d).value; InvShape(s') && Quiet(s, s')
  {
    match s.drains[d] {
      case ReadHead => ShapeReadHead(c, s, d);
      case ResetUnlock(_) => ShapeResetUnlock(c, s, d);
      case ResetReadNext(_) => ShapeResetReadNext(c, s, d);
      case Exit => ShapeExit(c, s, d);
      case OnNode(node, at) =>
        match at {
          case TestTail => if s.tailPtr == node { ShapeTestTailLast(c, s, d); } else { ShapeTestTailOn(c, s, d); }
          case WantLock => ShapeWantLock(c, s, d);
          case Recheck => if s.tailPtr == node { ShapeRecheckReset(c, s, d); } else { ShapeRecheckOn(c, s, d); }
          case ClearedPtr => ShapeClearedPtr(c, s, d);
          case Unlock => ShapeUnlock(c, s, d);
        }
    }
  }

  lemma InvProduce(c: Listeners, s: State, t: nat)
    requires InvPart(c, s) && ProduceStep(s, t).Some?
    ensures InvPart(c, ProduceStep(s, t).value)
  {
    match s.producers[t] {
      case Allocated(_) => ShapeAllocated(s, t); NoLeakAllocated(s, t); ContentAllocated(c, s, t);
      case Locked(_) =>
        if s.tailPtr == 0 {
          ShapeLockedEmpty(s, t); NoLeakLockedEmpty(s, t); ContentLockedEmpty(c, s, t);
        } else {
          ShapeLockedLinked(s, t); NoLeakLockedLinked(s, t); ContentLockedLinked(c, s, t);
        }
      case _ => ShapeQuietProduce(s, t); QuietKeeps(c, s, ProduceStep(s, t).value);
    }
  }

  lemma InvOnNode(c: Listeners, s: State, d: nat)
    requires InvPart(c, s) && DrainStep(c, s, d).Some? && s.drains[d].OnNode? && !QuietDrain(s, d)
    ensures InvPart(c, DrainStep(c, s, d).value)
  {
    match s.drains[d].at {
      case Test =>
        assert s.heap[s.links[s.popped]].ptr.Some?;
        ShapeTest(c, s, d); NoLeakTest(c, s, d); ContentTest(c, s, d);
      case Inform(msg, k) =>
        if k < Count(c, msg.etype) {
          ShapeInformCall(c, s, d); NoLeakInformCall(c, s, d); ContentInformCall(c, s, d);
        } else {
          ShapeInformDone(c, s, d); NoLeakInformDone(c, s, d); ContentInformDone(c, s, d);
        }
      case ClearedTail => ShapeClearedTail(c, s, d); NoLeakClearedTail(c, s, d); ContentClearedTail(c, s, d);
      case ReadNext => ShapeReadNext(c, s, d); NoLeakReadNext(c, s, d); ContentReadNext(c, s, d);
    }
  }

  lemma InvDrain(c: Listeners, s: State, d: nat)
    requires InvPart(c, s) && DrainStep(c, s, d).Some?
    ensures InvPart(c, DrainStep(c, s, d).value)
  {
    if QuietDrain(s, d) {
      ShapeQuietDrain(c, s, d); QuietKeeps(c, s, DrainStep(c, s, d).value);
    } else if s.drains[d].OnNode? {
      InvOnNode(c, s, d);
    } else if s.drains[d].Leaving? {
      ShapeLeaving(c, s, d); NoLeakLeaving(c, s, d); ContentLeaving(c, s, d);
    } else {
      ShapeResetLeaving(c, s, d); NoLeakResetLeaving(c, s, d); ContentResetLeaving(c, s, d);
    }
  }

  /** Producer `u`, which has not yet taken the mutex, and its node are the same in both states. */
  predicate SameHeld(s: State, s': State, u: nat)
    requires u in s.producers && s.producers[u].Allocated?
  {
    var item := s.producers[u].item;
    && u in s'.producers && s'.producers[u] == s.producers[u]
    && (item in s.heap ==> item in s'.heap && s'.heap[item].ptr == s.heap[item].ptr)
  }

  lemma HeldThroughProduce(s: State, t: nat, u: nat)
    requires InvShape(s) && ProduceStep(s, t).Some? && u in s.producers && s.producers[u].Allocated? && u != t
    ensures SameHeld(s, ProduceStep(s, t).value, u)
  {
    if s.producers[t].Locked? {
      assert s.heap[s.producers[t].item].owner == OfProducer(t);
      assert s.tailPtr != 0 ==> s.heap[s.tail].owner.InList?;
    }
  }

  /** A drain task touches no other node than the one it works on. */
  lemma OnNodeTouchesItsNode(c: Listeners, s: State, d: nat, node: Addr, at: Point, a: Addr)
    requires OnNodeStep(c, s, d, node, at).Some? && a in s.heap && a != node
    ensures var s' := OnNodeStep(c, s, d, node, at).value;
      s'.producers == s.producers && a in s'.heap && s'.heap[a] == s.heap[a]
  {
  }

  lemma DrainTouchesItsNode(c: Listeners, s: State, d: nat, a: Addr)
    requires DrainStep(c, s, d).Some? && a in s.heap
    requires var pc := s.drains[d]; pc.ReadHead? || pc.Exit? || pc.node != a
    ensures var s' := DrainStep(c, s, d).value; s'.producers == s.producers && a in s'.heap && s'.heap[a] == s.heap[a]
  {
    match s.drains[d]
    case OnNode(node, at) => OnNodeTouchesItsNode(c, s, d, node, at, a);
    case _ =>
  }

  lemma HeldThroughDrain(c: Listeners, s: State, d: nat, u: nat)
    requires InvOwn(s) && InvToken(s) && InvActive(s) && InvChain(s)
    requires DrainStep(c, s, d).Some? && u in s.producers && s.producers[u].Allocated?
    ensures SameHeld(s, DrainStep(c, s, d).value, u)
  {
    var pc, item := s.drains[d], s.producers[u].item;
    assert s.heap[item].owner == OfProducer(u);
    if pc.OnNode? {
      assert s.heap[pc.node].owner.InList?;
    } else if Retired(pc) {
      assert s.heap[pc.node].owner == OfDrain(d);
    }
    DrainTouchesItsNode(c, s, d, item);
  }

  predicate SameHistory(s: State, s': State) {
    && s'.accepted == s.accepted && s'.enq == s.enq
    && (forall u <- s'.producers :: s'.producers[u].Allocated? ==>
          u in s.producers && s.producers[u] == s'.producers[u])
  }

  lemma ProduceAllocates(s: State, t: nat, u: nat)
    requires ProduceStep(s, t).Some? && !s.producers[t].Allocated?
    requires var p' := ProduceStep(s, t).value.producers; u in p' && p'[u].Allocated?
    ensures u in s.producers && s.producers[u] == ProduceStep(s, t).value.producers[u]
  {
  }

  lemma ProduceAccepts(s: State, t: nat)
    requires ProduceStep(s, t).Some? && !s.producers[t].Allocated?
    ensures ProduceStep(s, t).value.accepted == s.accepted && ProduceStep(s, t).value.enq == s.enq
  {
  }

  lemma ProduceHistory(s: State, t: nat)
    requires ProduceStep(s, t).Some? && !s.producers[t].Allocated?
    ensures SameHistory(s, ProduceStep(s, t).value)
  {
    var s' := ProduceStep(s, t).value;
    ProduceAccepts(s, t);
    forall u <- s'.producers | s'.producers[u].Allocated?
      ensures u in s.producers && s.producers[u] == s'.producers[u]
    {
      ProduceAllocates(s, t, u);
    }
  }

  lemma OnNodeHistory(c: Listeners, s: State, d: nat, node: Addr, at: Point)
    requires OnNodeStep(c, s, d, node, at).Some?
    ensures SameHistory(s, OnNodeStep(c, s, d, node, at).value)
  {
  }

  lemma DrainHistory(c: Listeners, s: State, d: nat)
    requires DrainStep(c, s, d).Some?
    ensures SameHistory(s, DrainStep(c, s, d).value)
  {
    match s.drains[d] {
      case OnNode(node, at) => OnNodeHistory(c, s, d, node, at);
      case _ =>
    }
  }

  lemma OnceKept(s: State, s': State)
    requires InvOnce(s) && SameHistory(s, s')
    requires forall u <- s.producers | s.producers[u].Allocated? :: SameHeld(s, s', u)
    ensures InvOnce(s')
  {
  }

  lemma OnceProduce(s: State, t: nat)
    requires InvShape(s) && InvOnce(s) && ProduceStep(s, t).Some? && !s.producers[t].Allocated?
    ensures InvOnce(ProduceStep(s, t).value)
  {
    var s' := ProduceStep(s, t).value;
    forall u <- s.producers | s.producers[u].Allocated? ensures SameHeld(s, s', u) {
      HeldThroughProduce(s, t, u);
    }
    ProduceHistory(s, t);
    OnceKept(s, s');
  }

  lemma OnceDrain(c: Listeners, s: State, d: nat)
    requires InvShape(s) && InvOnce(s) && DrainStep(c, s, d).Some?
    ensures InvOnce(DrainStep(c, s, d).value)
  {
    var s' := DrainStep(c, s, d).value;
    forall u <- s.producers | s.producers[u].Allocated? ensures SameHeld(s, s', u) {
      HeldThroughDrain(c, s, d, u);
    }
    DrainHistory(c, s, d);
    OnceKept(s, s');
  }

  lemma OnceTakesLock(s: State, t: nat)
    requires InvShape(s) && InvOnce(s) && ProduceStep(s, t).Some? && s.producers[t].Allocated?
    ensures InvOnce(ProduceStep(s, t).value)
  {
  }

  lemma OnceAddEvent(c: Listeners, s: State, t: nat, message: Option<Msg>, item: Addr)
    requires InvShape(s) && InvOnce(s) && AddEventStep(c, s, t, message, item).Some?
    ensures InvOnce(AddEventStep(c, s, t, message, item).value)
  {
  }

  lemma InvStep(c: Listeners, s: State, a: Action)
    requires Inv(c, s) && Step(c, s, a).Some?
    ensures Inv(c, Step(c, s, a).value)
  {
    match a {
      case AddEvent(t, message, item) =>
        ShapeAddEvent(c, s, t, message, item); NoLeakAddEvent(c, s, t, message, item);
        ContentAddEvent(c, s, t, message, item); OnceAddEvent(c, s, t, message, item);
      case Produce(t) =>
        InvProduce(c, s, t);
        if s.producers[t].Allocated? { OnceTakesLock(s, t); } else { OnceProduce(s, t); }
      case Start(d) =>
        ShapeStart(s, d); QuietStart(s, d); QuietKeeps(c, s, StartStep(s, d).value);
      case Drain(d) => InvDrain(c, s, d); OnceDrain(c, s, d);
    }
  }

  lemma {:induction false} InvRun(c: Listeners, run: seq<Action>)
    requires Run(c, run).Some?
    ensures Inv(c, Run(c, run).value)
  {
    if run == [] {
    } else {
      InvRun(c, run[..|run| - 1]);
      InvStep(c, Run(c, run[..|run| - 1]).value, run[|run| - 1]);
    }
  }

  // ---------------------------------------------------------------------------------------------
  // What holds in every state of every run
  // ---------------------------------------------------------------------------------------------

  /** The messages the calls of a run hand over for delivery. */
  function AcceptedBy(c: Listeners, run: seq<Action>): set<Msg> {
    if run == [] then {} else AcceptedBy(c, run[..|run| - 1]) + AcceptedOf(c, run[|run| - 1])
  }

  function AcceptedOf(c: Listeners, a: Action): set<Msg> {
    match a
    case AddEvent(_, Some(m), _) => if Count(c, m.etype) > 0 then {m} else {}
    case _ => {}
  }

  lemma AcceptedByStep(c: Listeners, s: State, a: Action)
    requires InvOnce(s) && Step(c, s, a).Some?
    ensures Step(c, s, a).value.accepted.Keys == s.accepted.Keys + AcceptedOf(c, a)
  {
    match a {
      case AddEvent(t, message, item) => AcceptedByCall(c, s, t, message, item);
      case Produce(t) => AcceptedKeysStay(s, t);
      case Start(_) =>
      case Drain(d) => DrainHistory(c, s, d);
    }
  }

  lemma AcceptedByCall(c: Listeners, s: State, t: nat, message: Option<Msg>, item: Addr)
    requires AddEventStep(c, s, t, message, item).Some?
    ensures AddEventStep(c, s, t, message, item).value.accepted.Keys ==
      s.accepted.Keys + AcceptedOf(c, AddEvent(t, message, item))
  {
  }

  lemma {:induction false} AcceptedByRun(c: Listeners, run: seq<Action>)
    requires Run(c, run).Some?
    ensures Run(c, run).value.accepted.Keys == AcceptedBy(c, run)
  {
    if run == [] {
    } else {
      AcceptedByRun(c, run[..|run| - 1]);
      InvRun(c, run[..|run| - 1]);
      AcceptedByStep(c, Run(c, run[..|run| - 1]).value, run[|run| - 1]);
    }
  }

  lemma AcceptedKeysStay(s: State, t: nat)
    requires InvOnce(s) && ProduceStep(s, t).Some?
    ensures ProduceStep(s, t).value.accepted.Keys == s.accepted.Keys
  {
    if s.producers[t].Allocated? {
      var m := s.heap[s.producers[t].item].ptr.value;
      assert m in s.accepted;
    } else {
      ProduceHistory(s, t);
    }
  }

  /** No step of any run reads or deletes a node that is not alive. */
  lemma NoDeadNodeTouched(c: Listeners, run: seq<Action>)
    requires Run(c, run).Some?
    ensures !Run(c, run).value.fault
  {
    InvRun(c, run);
  }

  lemma EnqueuedOnce(s: State)
    requires InvOnce(s)
    ensures Distinct(s.enq) && (set m <- s.enq) <= s.accepted.Keys
  {
    forall m <- s.enq ensures m in s.accepted {
      var k :| 0 <= k < |s.enq| && s.enq[k] == m;
    }
  }

  lemma Delivered(c: Listeners, s: State) returns (n: nat, k: nat)
    requires s.popped <= |s.enq| && InvLog(c, s)
    ensures n <= |s.enq| && (n == |s.enq| ==> k == 0) && (n < |s.enq| ==> k <= Count(c, s.enq[n].etype))
    ensures s.log == AllCalls(c, s.enq, n) + (if n < |s.enq| then Calls(s.enq[n], k) else [])
  {
    n, k := s.popped, 0;
    match FrontPoint(s) {
      case None =>
      case Some(at) => if at.Inform? { k := at.k; } else { n := s.popped + 1; }
    }
  }

  /** The listener calls made so far: all calls for the first `n` messages in the order in which the
      tail mutex was taken for them, then the first `k` calls for the next one. */
  lemma DeliveredInOrder(c: Listeners, run: seq<Action>) returns (n: nat, k: nat)
    requires Run(c, run).Some?
    ensures var s := Run(c, run).value;
      && n <= |s.enq| && Distinct(s.enq) && (set m <- s.enq) <= AcceptedBy(c, run)
      && (n == |s.enq| ==> k == 0) && (n < |s.enq| ==> k <= Count(c, s.enq[n].etype))
      && s.log == AllCalls(c, s.enq, n) + (if n < |s.enq| then Calls(s.enq[n], k) else [])
  {
    InvRun(c, run);
    AcceptedByRun(c, run);
    EnqueuedOnce(Run(c, run).value);
    n, k := Delivered(c, Run(c, run).value);
  }

  lemma {:induction false} AllCallsDistinct(c: Listeners, ms: seq<Msg>, n: nat)
    requires n <= |ms| && Distinct(ms)
    ensures Distinct(AllCalls(c, ms, n))
    ensures forall d <- AllCalls(c, ms, n) ::
      d.listener < Count(c, d.msg.etype) && exists i :: 0 <= i < n && ms[i] == d.msg
  {
    if n == 0 {
    } else {
      AllCallsDistinct(c, ms, n - 1);
      var before, last := AllCalls(c, ms, n - 1), Calls(ms[n - 1], Count(c, ms[n - 1].etype));
      forall d <- before ensures d.msg != ms[n - 1] {
        var i :| 0 <= i < n - 1 && ms[i] == d.msg;
      }
    }
  }

  /** No listener is called twice with the same message. */
  lemma NothingDeliveredTwice(c: Listeners, run: seq<Action>)
    requires Run(c, run).Some?
    ensures Distinct(Run(c, run).value.log)
  {
    var s := Run(c, run).value;
    var n, k := DeliveredInOrder(c, run);
    AllCallsDistinct(c, s.enq, n);
    if n < |s.enq| {
      forall d <- AllCalls(c, s.enq, n) ensures d.msg != s.enq[n] {
        var i :| 0 <= i < n && s.enq[i] == d.msg;
      }
    }
  }

  /** The list is served by exactly one of: a producer about to post the task, the posted task, or a
      drain task that has not reset the list. An empty list is served by none. */
  lemma OneServerPerList(c: Listeners, run: seq<Action>)
    requires Run(c, run).Some?
    ensures var s := Run(c, run).value;
      && s.posted <= 1
      && (forall t, u ::
            t in s.producers && u in s.producers && Opening(s.producers[t]) && Opening(s.producers[u]) ==> t == u)
      && (forall d, e :: d in s.drains && e in s.drains && Active(s.drains[d]) && Active(s.drains[e]) ==> d == e)
      && var opening := exists t :: t in s.producers && Opening(s.producers[t]);
         var active := exists d :: d in s.drains && Active(s.drains[d]);
         if Empty(s) then s.posted == 0 && !opening && !active
         else
           (s.posted == 1 && !opening && !active) || (s.posted == 0 && opening && !active) ||
           (s.posted == 0 && !opening && active)
  {
    InvRun(c, run);
    var s := Run(c, run).value;
    match s.token {
      case NoList =>
      case Posted =>
      case WithProducer(t) => assert Opening(s.producers[t]);
      case WithDrain(d) => assert Active(s.drains[d]);
    }
  }

  /** A producer sets out to post the drain task exactly when it finds the list empty. */
  lemma TaskPostedForFirst(c: Listeners, run: seq<Action>, t: nat)
    requires Run(c, run).Some?
    requires var s := Run(c, run).value; t in s.producers && s.producers[t].Locked?
    ensures var s := Run(c, run).value; var s' := ProduceStep(s, t).value;
      && !Empty(s') && t in s'.producers
      && (Opening(s'.producers[t]) <==> Empty(s))
  {
    InvRun(c, run);
    LockedOpens(Run(c, run).value, t);
  }

  lemma LockedOpens(s: State, t: nat)
    requires InvShape(s) && t in s.producers && s.producers[t].Locked?
    ensures var s' := ProduceStep(s, t).value;
      !Empty(s') && t in s'.producers && (Opening(s'.producers[t]) <==> Empty(s))
  {
    assert Settled(s);
    if !Empty(s) {
      assert s.links[|s.links| - 1] in s.heap;
    }
  }

  /** When the unlocked test finds another tail than the task's node, the next node is already
      linked, and it is alive. */
  lemma UnlockedTestIsSound(c: Listeners, run: seq<Action>, d: nat)
    requires Run(c, run).Some?
    requires var s := Run(c, run).value;
      d in s.drains && s.drains[d].OnNode? && s.drains[d].at.TestTail? && s.tailPtr != s.drains[d].node
    ensures var s := Run(c, run).value; var node := s.drains[d].node;
      node in s.heap && s.heap[node].next != 0 && s.heap[node].next in s.heap
  {
    InvRun(c, run);
    NextIsLinked(Run(c, run).value);
  }

  /** A drain task about to delete a node remembers that node's link. */
  predicate LinkKept(s: State, e: nat)
    requires e in s.drains
  {
    var pc := s.drains[e];
    pc.Leaving? || pc.ResetLeaving? ==> pc.node in s.heap && s.heap[pc.node].next == pc.next
  }

  predicate LinksKept(s: State) { forall e <- s.drains :: LinkKept(s, e) }

  /** Links of nodes that are not being linked to stay. */
  predicate NextStays(s: State, s': State, a: Addr) {
    a in s.heap && a in s'.heap && s'.heap[a].next == s.heap[a].next
  }

  /** A producer writes the link of the tail only. */
  lemma ProduceWritesTail(s: State, t: nat, a: Addr)
    requires ProduceStep(s, t).Some? && a in s.heap && (s.producers[t].Locked? && s.tailPtr != 0 ==> a != s.tail)
    ensures NextStays(s, ProduceStep(s, t).value, a)
  {
  }

  lemma ProduceLeavesDrains(s: State, t: nat)
    requires ProduceStep(s, t).Some?
    ensures ProduceStep(s, t).value.drains == s.drains
  {
  }

  lemma ProduceKeepsNext(s: State, t: nat, a: Addr)
    requires InvShape(s) && ProduceStep(s, t).Some? && a in s.heap && s.heap[a].owner.OfDrain?
    ensures NextStays(s, ProduceStep(s, t).value, a)
  {
    if s.producers[t].Locked? && s.tailPtr != 0 { TailIsLinked(s, t); }
    ProduceWritesTail(s, t, a);
  }

  lemma TailIsLinked(s: State, t: nat)
    requires InvLock(s) && InvChain(s) && InvPtrs(s) && t in s.producers && s.producers[t].Locked? && s.tailPtr != 0
    ensures s.tail in s.heap && s.heap[s.tail].owner.InList?
  {
    assert s.lock == ByProducer(t);
  }

  lemma OnNodeLinks(c: Listeners, s: State, d: nat, node: Addr, at: Point, a: Addr)
    requires OnNodeStep(c, s, d, node, at).Some? && a in s.heap
    ensures NextStays(s, OnNodeStep(c, s, d, node, at).value, a)
  {
  }

  /** On a node, a drain task moves itself only, and reads the link last. */
  lemma OnNodeMoves(c: Listeners, s: State, d: nat, node: Addr, at: Point)
    requires d in s.drains && s.drains[d] == OnNode(node, at) && OnNodeStep(c, s, d, node, at).Some?
    ensures var s' := OnNodeStep(c, s, d, node, at).value;
      && d in s'.drains && s'.drains == s.drains[d := s'.drains[d]]
      && !s'.drains[d].ResetLeaving?
      && (s'.drains[d].Leaving? ==>
            s'.drains[d].node in s'.heap && s'.heap[s'.drains[d].node].next == s'.drains[d].next)
  {
    assert s.drains == s.drains[d := s.drains[d]];
  }

  lemma DrainKeepsNext(c: Listeners, s: State, d: nat, e: nat)
    requires InvOwn(s) && DrainStep(c, s, d).Some? && e in s.drains && e != d && Retired(s.drains[e])
    requires d in s.drains && (Retired(s.drains[d]) ==> s.drains[d].node != s.drains[e].node)
    ensures NextStays(s, DrainStep(c, s, d).value, s.drains[e].node)
  {
    match s.drains[d] {
      case OnNode(node, at) => OnNodeLinks(c, s, d, node, at, s.drains[e].node);
      case _ =>
    }
  }

  lemma DrainMoves(c: Listeners, s: State, d: nat)
    requires DrainStep(c, s, d).Some?
    ensures d in s.drains
    ensures forall e :: e != d ==> (e in DrainStep(c, s, d).value.drains <==> e in s.drains)
    ensures forall e <- s.drains :: e != d ==> DrainStep(c, s, d).value.drains[e] == s.drains[e]
  {
    match s.drains[d] {
      case OnNode(node, at) => OnNodeMoves(c, s, d, node, at);
      case _ =>
    }
  }

  lemma OwnLinkKept(c: Listeners, s: State, d: nat)
    requires DrainStep(c, s, d).Some? && d in s.drains && LinkKept(s, d) && !DrainStep(c, s, d).value.fault
    requires d in DrainStep(c, s, d).value.drains
    ensures LinkKept(DrainStep(c, s, d).value, d)
  {
    match s.drains[d] {
      case OnNode(node, at) => OnNodeMoves(c, s, d, node, at);
      case _ =>
    }
  }

  lemma LinksKeptProduce(s: State, t: nat)
    requires InvShape(s) && LinksKept(s) && ProduceStep(s, t).Some?
    ensures LinksKept(ProduceStep(s, t).value)
  {
    var s' := ProduceStep(s, t).value;
    ProduceLeavesDrains(s, t);
    forall e <- s'.drains ensures LinkKept(s', e) {
      assert LinkKept(s, e) && DrainOwns(s, e, s.drains[e]);
      if Retired(s.drains[e]) { ProduceKeepsNext(s, t, s.drains[e].node); }
    }
  }

  lemma LinksKeptDrain(c: Listeners, s: State, d: nat)
    requires InvShape(s) && LinksKept(s) && DrainStep(c, s, d).Some? && !DrainStep(c, s, d).value.fault
    ensures LinksKept(DrainStep(c, s, d).value)
  {
    var s' := DrainStep(c, s, d).value;
    DrainMoves(c, s, d);
    forall e <- s'.drains ensures LinkKept(s', e) {
      if e == d {
        assert LinkKept(s, d);
        OwnLinkKept(c, s, d);
      } else {
        assert LinkKept(s, e) && DrainOwns(s, e, s.drains[e]) && DrainOwns(s, d, s.drains[d]);
        if Retired(s.drains[e]) { DrainKeepsNext(c, s, d, e); }
      }
    }
  }

  lemma LinksKeptStep(c: Listeners, s: State, a: Action)
    requires InvShape(s) && LinksKept(s) && Step(c, s, a).Some? && !Step(c, s, a).value.fault
    ensures LinksKept(Step(c, s, a).value)
  {
    match a {
      case AddEvent(t, message, item) => LinksKeptCall(c, s, t, message, item);
      case Produce(t) => LinksKeptProduce(s, t);
      case Start(d) => LinksKeptStart(s, d);
      case Drain(d) => LinksKeptDrain(c, s, d);
    }
  }

  lemma LinksKeptCall(c: Listeners, s: State, t: nat, message: Option<Msg>, item: Addr)
    requires LinksKept(s) && AddEventStep(c, s, t, message, item).Some?
    ensures LinksKept(AddEventStep(c, s, t, message, item).value)
  {
    forall e <- s.drains ensures LinkKept(AddEventStep(c, s, t, message, item).value, e) {
      assert LinkKept(s, e);
    }
  }

  lemma LinksKeptStart(s: State, d: nat)
    requires LinksKept(s) && StartStep(s, d).Some?
    ensures LinksKept(StartStep(s, d).value)
  {
    forall e <- s.drains ensures LinkKept(StartStep(s, d).value, e) {
      assert LinkKept(s, e);
    }
  }

  lemma {:induction false} LinksKeptRun(c: Listeners, run: seq<Action>)
    requires Run(c, run).Some?
    ensures LinksKept(Run(c, run).value)
  {
    if run == [] {
    } else {
      LinksKeptRun(c, run[..|run| - 1]);
      InvRun(c, run[..|run| - 1]);
      InvRun(c, run);
      LinksKeptStep(c, Run(c, run[..|run| - 1]).value, run[|run| - 1]);
    }
  }

  /** A producer that may still read or write its node. */
  predicate UsesItem(pc: ProducerPc) { !pc.Retask? && !pc.MovedPtr? }

  lemma UsedItemIsNoDrains(s: State, t: nat)
    requires InvShape(s) && t in s.producers && UsesItem(s.producers[t])
    ensures s.producers[t].item in s.heap && !s.heap[s.producers[t].item].owner.OfDrain?
  {
    var pc := s.producers[t];
    if !Private(pc) {
      assert s.lock == ByProducer(t) && MidProducer(s, pc);
    }
  }

  /** No live node links to a node that a drain task is about to delete. */
  lemma NothingLinksTo(s: State, d: nat, a: Addr)
    requires InvShape(s) && InvNoLeak(s) && LinksKept(s) && a in s.heap
    requires d in s.drains && (s.drains[d].Leaving? || s.drains[d].ResetLeaving?)
    ensures s.heap[a].next != s.drains[d].node
  {
    var node := s.drains[d].node;
    assert s.heap[node].owner == OfDrain(d);
    match s.heap[a].owner {
      case InList(k) => assert s.heap[a].next == After(s.links, k);
      case OfProducer(t) =>
      case OfDrain(e) => assert LinkKept(s, e) && DrainOwns(s, e, s.drains[e]);
    }
  }

  /** A node about to be deleted is alive and cannot be reached by anybody else: not as m_tail or
      m_tail_ptr, not by a link of any other node, not by a producer that still uses its node, not by
      another drain task. */
  lemma DeletedNodeIsUnreachable(c: Listeners, run: seq<Action>, d: nat)
    requires Run(c, run).Some?
    requires var s := Run(c, run).value; d in s.drains && (s.drains[d].Leaving? || s.drains[d].ResetLeaving?)
    ensures var s := Run(c, run).value; var node := s.drains[d].node;
      && node in s.heap && node != s.tail && node != s.tailPtr
      && (forall a <- s.heap :: s.heap[a].next != node)
      && (forall t <- s.producers :: UsesItem(s.producers[t]) ==> s.producers[t].item != node)
      && (forall e <- s.drains :: e != d ==>
            (s.drains[e].OnNode? || Retired(s.drains[e]) ==> s.drains[e].node != node)
            && (s.drains[e].Leaving? || s.drains[e].ResetLeaving? ==> s.drains[e].next != node))
  {
    InvRun(c, run);
    LinksKeptRun(c, run);
    var s := Run(c, run).value;
    forall a <- s.heap ensures s.heap[a].next != s.drains[d].node {
      NothingLinksTo(s, d, a);
    }
    forall t <- s.producers | UsesItem(s.producers[t]) ensures s.producers[t].item != s.drains[d].node {
      UsedItemIsNoDrains(s, t);
    }
    DeletedIsNoTail(s, d);
    forall e <- s.drains | e != d
      ensures s.drains[e].OnNode? || Retired(s.drains[e]) ==> s.drains[e].node != s.drains[d].node
      ensures s.drains[e].Leaving? || s.drains[e].ResetLeaving? ==> s.drains[e].next != s.drains[d].node
    {
      OthersElsewhere(s, d, e);
    }
  }

  lemma DeletedIsNoTail(s: State, d: nat)
    requires InvShape(s) && d in s.drains && (s.drains[d].Leaving? || s.drains[d].ResetLeaving?)
    ensures s.drains[d].node in s.heap && s.drains[d].node != s.tail && s.drains[d].node != s.tailPtr
  {
    assert s.tail != 0 ==> s.heap[s.tail].owner.InList?;
    assert s.tailPtr != 0 ==> s.heap[s.tailPtr].owner.InList?;
  }

  lemma OthersElsewhere(s: State, d: nat, e: nat)
    requires InvShape(s) && d in s.drains && (s.drains[d].Leaving? || s.drains[d].ResetLeaving?)
    requires e in s.drains && e != d
    ensures s.drains[e].OnNode? || Retired(s.drains[e]) ==> s.drains[e].node != s.drains[d].node
    ensures s.drains[e].Leaving? || s.drains[e].ResetLeaving? ==> s.drains[e].next != s.drains[d].node
  {
    assert DrainOwns(s, d, s.drains[d]) && DrainOwns(s, e, s.drains[e]);
  }

  predicate AtRest(s: State) {
    s.producers == map[] && s.drains == map[] && s.posted == 0
  }

  lemma LiveNodeIsReachable(s: State, a: Addr)
    requires InvNoLeak(s) && a in s.heap
    ensures s.popped < |s.links| || s.producers != map[] || s.drains != map[]
  {
  }

  /** Once no thread is inside the loop, every accepted message has been delivered to all its
      listeners, the list is back in its initial state and no node is left. */
  lemma AtRestAllDelivered(c: Listeners, run: seq<Action>)
    requires Run(c, run).Some? && AtRest(Run(c, run).value)
    ensures var s := Run(c, run).value;
      && s.log == AllCalls(c, s.enq, |s.enq|)
      && Distinct(s.enq) && (set m <- s.enq) == AcceptedBy(c, run)
      && s.heap == map[] && s.head == s.tail == s.tailPtr == 0 && s.lock == Free
  {
    InvRun(c, run);
    AcceptedByRun(c, run);
    var s := Run(c, run).value;
    assert s.token == NoList;
    if a :| a in s.heap {
      LiveNodeIsReachable(s, a);
    }
    forall m <- s.accepted ensures m in s.enq {
      assert s.accepted[m].Enqueued?;
    }
  }

  lemma ProduceEnabled(s: State, t: nat)
    requires t in s.producers && (s.lock == Free || !s.producers[t].Allocated?)
    ensures ProduceStep(s, t).Some?
  {
  }

  lemma DrainEnabled(c: Listeners, s: State, d: nat)
    requires d in s.drains && (s.lock == Free || DrainLocks(s.drains[d]))
    ensures DrainStep(c, s, d).Some?
  {
  }

  /** Some thread inside the loop can always go on: no run is stuck before everything is delivered. */
  lemma NeverStuck(c: Listeners, run: seq<Action>) returns (a: Action)
    requires Run(c, run).Some? && !AtRest(Run(c, run).value)
    ensures !a.AddEvent? && Step(c, Run(c, run).value, a).Some?
  {
    InvRun(c, run);
    var s := Run(c, run).value;
    match s.lock {
      case ByProducer(t) => a := Produce(t); ProduceEnabled(s, t);
      case ByDrain(d) => a := Drain(d); DrainEnabled(c, s, d);
      case Free =>
        if d :| d in s.drains {
          a := Drain(d); DrainEnabled(c, s, d);
        } else if t :| t in s.producers {
          a := Produce(t); ProduceEnabled(s, t);
        } else {
          assert s.drains == map[] && s.producers == map[];
          a := Start(0);
        }
    }
  }

  /** With no step left to run, all accepted messages are delivered. */
  lemma StuckMeansDelivered(c: Listeners, run: seq<Action>)
    requires Run(c, run).Some?
    requires forall a: Action :: !a.AddEvent? ==> Step(c, Run(c, run).value, a).None?
    ensures var s := Run(c, run).value; s.log == AllCalls(c, s.enq, |s.enq|) && (set m <- s.enq) == AcceptedBy(c, run)
  {
    if !AtRest(Run(c, run).value) {
      var a := NeverStuck(c, run);
    } else {
      AtRestAllDelivered(c, run);
    }
  }
}
