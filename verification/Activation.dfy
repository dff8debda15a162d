/** Lines going on and off: mainlines feed the inputs of one combine unit, which feeds the dispatch.
    A mainline changes its state and asks for an upstream sync; the rack thread passes the new states
    down, the combine unit and the dispatch decide whether the rack's state changes, and the dispatch's
    request for a global sync is met in the same iteration. */
module Activation {
  import opened GlobalSync
  import opened LineProfiles
  import opened SyncCycles
  import opened UnitSync

  /** Line `k` runs from the mainline lines[k][0] over step units into input inputs[k] of the combine
      unit trunk[0]; the trunk runs over step units into the dispatch unit `d`. */
  datatype Wiring = Wiring(lines: seq<seq<nat>>, inputs: seq<nat>, trunk: seq<nat>, trunkInput: nat, d: nat)

  predicate SingleOutput(g: Graph, u: nat, link: Link)
    requires u in g.outs
  {
    exists j: nat :: j < |g.outs[u]| && g.outs[u][j] == link && link.connected &&
      forall k: nat :: k < |g.outs[u]| && k != j ==> !g.outs[u][k].connected
  }

  /** A step unit without an upstream request of its own. */
  predicate PlainStep(unit: Unit) { unit.kind.Step? && !unit.upstream }

  /** The units of `path` are joined by their only outputs, end in input `input` of `to`, and all but
      the first are plain step units. */
  ghost predicate Leads(g: Graph, s: State, path: seq<nat>, to: nat, input: nat)
    requires Fits(g, s)
    decreases |path|
  {
    && path != [] && path[0] in g.outs && to in g.outs
    && if |path| == 1 then SingleOutput(g, path[0], Link(true, to, input))
       else
         && path[1] in g.outs && PlainStep(s.units[path[1]])
         && (exists i: nat :: SingleOutput(g, path[0], Link(true, path[1], i)))
         && Leads(g, s, path[1..], to, input)
  }

  ghost predicate Wired(g: Graph, s: State, w: Wiring) {
    && Fits(g, s)
    && w.lines != [] && |w.inputs| == |w.lines|
    && w.trunk != [] && Leads(g, s, w.trunk, w.d, w.trunkInput)
    && s.units[w.trunk[0]].kind.Combine?
    && s.units[w.d].kind.Dispatch? && !HasOutput(g, w.d)
    && (forall k :: 0 <= k < |w.lines| ==>
          && Leads(g, s, w.lines[k], w.trunk[0], w.inputs[k])
          && s.units[w.lines[k][0]].kind.Mainline?
          && w.inputs[k] < |s.units[w.trunk[0]].inputs|)
    && (forall j, k :: 0 <= j < k < |w.lines| ==> w.inputs[j] != w.inputs[k])
  }

  /** The mainlines, in the order the rack walks them. */
  function Mainlines(w: Wiring): (ms: seq<nat>)
    requires forall k :: 0 <= k < |w.lines| ==> w.lines[k] != []
    ensures |ms| == |w.lines| && forall k :: 0 <= k < |ms| ==> ms[k] == w.lines[k][0]
  {
    seq(|w.lines|, k requires 0 <= k < |w.lines| => w.lines[k][0])
  }

  // ---------------------------------------------------------------------------------------------
  // Walking a chain
  // ---------------------------------------------------------------------------------------------

  lemma {:induction false} SingleOutputWalk(g: Graph, s: State, u: nat, link: Link, i: nat, p: Profile, f: Flags)
    requires Fits(g, s) && u in g.outs && SingleOutput(g, u, link) && i <= |g.outs[u]|
    requires forall k: nat :: k < i ==> !g.outs[u][k].connected
    ensures link.to in g.outs
    ensures ContinueSync(g, s, u, i, p, f) == SyncLine(g, s, link.to, p, f, link.input)
    decreases |g.outs[u]| - i
  {
    var j: nat :| j < |g.outs[u]| && g.outs[u][j] == link && link.connected &&
      forall k: nat :: k < |g.outs[u]| && k != j ==> !g.outs[u][k].connected;
    if i < j {
      SingleOutputWalk(g, s, u, link, i + 1, p, f);
    } else {
      var (s1, p1) := SyncLine(g, s, link.to, p, f, link.input);
      NoMoreOutputs(g, s1, u, j + 1, p1, f);
    }
  }

  lemma {:induction false} NoMoreOutputs(g: Graph, s: State, u: nat, i: nat, p: Profile, f: Flags)
    requires Fits(g, s) && u in g.outs && i <= |g.outs[u]|
    requires forall k: nat :: i <= k < |g.outs[u]| ==> !g.outs[u][k].connected
    ensures ContinueSync(g, s, u, i, p, f) == (s, p) && Behind(g, u, i) == []
    decreases |g.outs[u]| - i
  {
    if i == |g.outs[u]| {
    } else {
      NoMoreOutputs(g, s, u, i + 1, p, f);
    }
  }

  lemma {:induction false} SingleOutputVisits(g: Graph, s: State, u: nat, link: Link, i: nat)
    requires Fits(g, s) && u in g.outs && SingleOutput(g, u, link) && i <= |g.outs[u]|
    requires forall k: nat :: k < i ==> !g.outs[u][k].connected
    ensures link.to in g.outs && Behind(g, u, i) == Visits(g, link.to)
    decreases |g.outs[u]| - i
  {
    var j: nat :| j < |g.outs[u]| && g.outs[u][j] == link && link.connected &&
      forall k: nat :: k < |g.outs[u]| && k != j ==> !g.outs[u][k].connected;
    if i < j {
      SingleOutputVisits(g, s, u, link, i + 1);
    } else {
      NoMoreOutputs(g, s, u, j + 1, s.global, NONE);
    }
  }

  lemma {:induction false} ChainVisits(g: Graph, s: State, path: seq<nat>, to: nat, input: nat)
    requires Fits(g, s) && Leads(g, s, path, to, input)
    ensures Visits(g, path[0]) == path + Visits(g, to)
    ensures forall u <- path :: u in g.outs && HasOutput(g, u)
    ensures forall u <- path[1..] :: s.units[u].kind.Step?
    decreases |path|
  {
    assert path == [path[0]] + path[1..];
    if |path| == 1 {
      SingleOutputVisits(g, s, path[0], Link(true, to, input), 0);
    } else {
      var i: nat :| SingleOutput(g, path[0], Link(true, path[1], i));
      SingleOutputVisits(g, s, path[0], Link(true, path[1], i), 0);
      ChainVisits(g, s, path[1..], to, input);
      assert path[1..] == [path[1]] + path[1..][1..];
    }
  }

  lemma NothingBehindDispatch(g: Graph, s: State, w: Wiring)
    requires Wired(g, s, w)
    ensures Visits(g, w.d) == [w.d]
  {
    NothingBehind(g, w.d, 0);
  }

  /** Every path of a wired rack ends in its dispatch unit. */
  lemma WiredEndsIn(g: Graph, s: State, w: Wiring, k: nat)
    requires Wired(g, s, w) && k < |w.lines|
    ensures EndsIn(g, s, w.lines[k][0], w.d)
    ensures Visits(g, w.lines[k][0]) == w.lines[k] + (w.trunk + [w.d])
  {
    ChainVisits(g, s, w.lines[k], w.trunk[0], w.inputs[k]);
    ChainVisits(g, s, w.trunk, w.d, w.trunkInput);
    NothingBehindDispatch(g, s, w);
    forall v <- Visits(g, w.lines[k][0])
      ensures (s.units[v].kind.Dispatch? <==> v == w.d) && (HasOutput(g, v) <==> v != w.d)
    {
      if v in w.lines[k] {
        assert v == w.lines[k][0] || v in w.lines[k][1..];
      } else if v in w.trunk {
        assert v == w.trunk[0] || v in w.trunk[1..];
      }
    }
  }

  lemma AllWiredEndIn(g: Graph, s: State, w: Wiring)
    requires Wired(g, s, w)
    ensures MainlinesFit(g, Mainlines(w)) && AllEndIn(g, s, Mainlines(w), w.d) && w.d !in Mainlines(w)
  {
    forall m <- Mainlines(w) ensures m in g.outs && EndsIn(g, s, m, w.d) && m != w.d {
      var k :| 0 <= k < |w.lines| && m == w.lines[k][0];
      WiredEndsIn(g, s, w, k);
    }
  }

  /** Nothing but the unit state of step units differs. */
  predicate StepsMarked(s: State, s': State) {
    && s' == s.(units := s'.units) && s'.units.Keys == s.units.Keys
    && forall u <- s.units :: s'.units[u] ==
         if s.units[u].kind.Step? then SetState(s.units[u], s'.units[u].unitProfile.state) else s.units[u]
  }

  /** The units `us` have this state, and nothing else differs. */
  predicate Marked(s: State, s': State, us: seq<nat>, state: int) {
    && s' == s.(units := s'.units) && s'.units.Keys == s.units.Keys
    && forall u <- s.units :: s'.units[u] == if u in us then SetState(s.units[u], state) else s.units[u]
  }

  lemma MarkedOneMore(s: State, s': State, us: seq<nat>, state: int)
    requires us != [] && us[0] in s.units && Marked(Put(s, us[0], SetState(s.units[us[0]], state)), s', us[1..], state)
    ensures Marked(s, s', us, state)
  {
    assert us == [us[0]] + us[1..];
  }

  lemma MarkedSteps(s: State, s': State, us: seq<nat>, state: int)
    requires Marked(s, s', us, state) && forall u <- us :: u in s.units && s.units[u].kind.Step?
    ensures StepsMarked(s, s')
  {
  }

  /** An upstream walk along a chain gives the step units on it the profile's state, changes nothing else,
      and enters `to` with the same profile. */
  lemma {:induction false} ChainWalk(g: Graph, s: State, path: seq<nat>, to: nat, input: nat, p: Profile)
    returns (s1: State)
    requires Fits(g, s) && Leads(g, s, path, to, input)
    ensures Fits(g, s1) && Marked(s, s1, path[1..], p.state)
    ensures ContinueSync(g, s, path[0], 0, p, UPSTREAM) == SyncLine(g, s1, to, p, UPSTREAM, input)
    decreases |path|
  {
    if |path| == 1 {
      s1 := s;
      SingleOutputWalk(g, s, path[0], Link(true, to, input), 0, p, UPSTREAM);
    } else {
      var i: nat :| SingleOutput(g, path[0], Link(true, path[1], i));
      SingleOutputWalk(g, s, path[0], Link(true, path[1], i), 0, p, UPSTREAM);
      var marked := Put(s, path[1], SetState(s.units[path[1]], p.state));
      StillLeads(g, s, marked, path[1..], to, input);
      s1 := ChainWalk(g, marked, path[1..], to, input, p);
      MarkedOneMore(s, s1, path[1..], p.state);
    }
  }

  /** The same, when only the kind of what changes matters. */
  lemma ChainMarks(g: Graph, s: State, path: seq<nat>, to: nat, input: nat, p: Profile) returns (s1: State)
    requires Fits(g, s) && Leads(g, s, path, to, input)
    ensures Fits(g, s1) && StepsMarked(s, s1)
    ensures ContinueSync(g, s, path[0], 0, p, UPSTREAM) == SyncLine(g, s1, to, p, UPSTREAM, input)
  {
    s1 := ChainWalk(g, s, path, to, input, p);
    ChainVisits(g, s, path, to, input);
    MarkedSteps(s, s1, path[1..], p.state);
  }

  /** A chain stays one while kinds and upstream requests of step units stay. */
  lemma {:induction false} StillLeads(g: Graph, s: State, s': State, path: seq<nat>, to: nat, input: nat)
    requires Fits(g, s) && Fits(g, s') && Leads(g, s, path, to, input)
    requires forall u <- s.units :: PlainStep(s.units[u]) ==> PlainStep(s'.units[u])
    ensures Leads(g, s', path, to, input)
    decreases |path|
  {
    if |path| == 1 {
    } else {
      StillLeads(g, s, s', path[1..], to, input);
    }
  }

  // ---------------------------------------------------------------------------------------------
  // What one mainline's upstream walk does to the combine unit and the dispatch
  // ---------------------------------------------------------------------------------------------

  /** All that the decisions depend on or change: the combine unit's inputs and own state, the dispatch's own
      state, whether a global sync has been requested, and how many cycles the rack has still to run. */
  datatype View = View(inputs: seq<bool>, combine: int, dispatch: int, requested: bool, cycles: int)

  function ViewOf(s: State, w: Wiring): View
    requires w.trunk != [] && w.trunk[0] in s.units && w.d in s.units
  {
    var combine := s.units[w.trunk[0]];
    View(combine.inputs, combine.unitProfile.state, s.units[w.d].unitProfile.state, s.flags.glob, s.cycles)
  }

  predicate NoneOn(inputs: seq<bool>) { forall i :: 0 <= i < |inputs| ==> !inputs[i] }

  function StateOf(on: bool): int { if on then ACTIVE else INACTIVE }

  /** The dispatch takes over a changed state; a rack that comes on is triggered. */
  function Turned(v: View, on: bool): View {
    v.(dispatch := StateOf(on), requested := true, cycles := if on then v.cycles + 1 else v.cycles)
  }

  /** Line `input` reports `on` while the rack's state is `rackOn`. */
  function Report(v: View, rackOn: bool, input: nat, on: bool): View
    requires input < |v.inputs|
  {
    var inputs := v.inputs[input := on];
    if on != rackOn && (on || NoneOn(inputs)) then Turned(v.(inputs := inputs, combine := StateOf(on)), on)
    else v.(inputs := inputs)
  }

  /** What an upstream walk leaves alone. */
  predicate Upstreamed(s: State, s': State, w: Wiring) {
    && s'.units.Keys == s.units.Keys && s'.global == s.global
    && s'.flags == s.flags.(glob := s'.flags.glob)
    && (s.resync ==> s'.resync)
    && forall u <- s.units ::
         && s'.units[u].kind == s.units[u].kind && s'.units[u].globalProfile == s.units[u].globalProfile
         && |s'.units[u].inputs| == |s.units[u].inputs|
         && (s.units[u].kind.Mainline? ==> s'.units[u].unitProfile == s.units[u].unitProfile)
         && (!s.units[u].upstream ==> !s'.units[u].upstream)
  }

  lemma StillWired(g: Graph, s: State, s': State, w: Wiring)
    requires Wired(g, s, w) && Fits(g, s') && Upstreamed(s, s', w)
    ensures Wired(g, s', w)
  {
    StillLeads(g, s, s', w.trunk, w.d, w.trunkInput);
    forall k | 0 <= k < |w.lines| ensures Leads(g, s', w.lines[k], w.trunk[0], w.inputs[k]) {
      StillLeads(g, s, s', w.lines[k], w.trunk[0], w.inputs[k]);
    }
  }

  /** The combine unit and the dispatch hold the rack's state. */
  predicate HoldsRackState(s: State, w: Wiring, rackOn: bool)
    requires w.trunk != [] && w.trunk[0] in s.units && w.d in s.units
  {
    s.units[w.trunk[0]].globalProfile.state == StateOf(rackOn) && s.units[w.d].globalProfile.state == StateOf(rackOn)
  }

  /** The trunk hands a changed state to the dispatch. */
  lemma TrunkWalk(g: Graph, s: State, w: Wiring, p: Profile, rackOn: bool)
    requires Wired(g, s, w) && HoldsRackState(s, w, rackOn) && p.state == StateOf(!rackOn)
    ensures var s' := ContinueSync(g, s, w.trunk[0], 0, p, UPSTREAM).0;
      && Upstreamed(s, s', w)
      && ViewOf(s', w) == Turned(ViewOf(s, w), !rackOn)
  {
    var s1 := ChainMarks(g, s, w.trunk, w.d, w.trunkInput, p);
    DispatchWalk(g, s1, w.d, p, w.trunkInput);
    DispatchTurns(s1, w, p, !rackOn);
    UpstreamedThen(s, s1, DispatchUpstream(s1, w.d, p), w);
  }

  lemma DispatchWalk(g: Graph, s: State, d: nat, p: Profile, input: nat)
    requires Fits(g, s) && d in g.outs && s.units[d].kind.Dispatch?
    ensures SyncLine(g, s, d, p, UPSTREAM, input).0 == DispatchUpstream(s, d, p)
  {
  }

  /** The dispatch takes over a state that is not its own. */
  lemma DispatchChanges(s: State, d: nat, p: Profile)
    requires d in s.units && p.state != s.units[d].globalProfile.state
    ensures var s' := DispatchUpstream(s, d, p);
      && s'.units == s.units[d := SetState(s.units[d], p.state)]
      && s'.global == s.global && s'.flags == s.flags.(glob := true) && s'.resync
      && s'.cycles == if p.state == ACTIVE then s.cycles + 1 else s.cycles
  {
  }

  lemma DispatchTurns(s: State, w: Wiring, p: Profile, on: bool)
    requires w.d in s.units && s.units[w.d].kind.Dispatch? && p.state != s.units[w.d].globalProfile.state
    requires p.state == StateOf(on)
    requires w.trunk != [] && w.trunk[0] in s.units && s.units[w.trunk[0]].kind.Combine?
    ensures var s' := DispatchUpstream(s, w.d, p);
      Upstreamed(s, s', w) && ViewOf(s', w) == Turned(ViewOf(s, w), on)
  {
    DispatchChanges(s, w.d, p);
  }

  lemma UpstreamedThen(s: State, s1: State, s2: State, w: Wiring)
    requires Upstreamed(s, s1, w) && Upstreamed(s1, s2, w)
    ensures Upstreamed(s, s2, w)
  {
  }

  lemma MarkingIsUpstream(g: Graph, s: State, s1: State, w: Wiring, rackOn: bool)
    requires Wired(g, s, w) && Fits(g, s1) && StepsMarked(s, s1)
    ensures Upstreamed(s, s1, w) && Wired(g, s1, w) && ViewOf(s1, w) == ViewOf(s, w)
    ensures HoldsRackState(s, w, rackOn) ==> HoldsRackState(s1, w, rackOn)
  {
    StillWired(g, s, s1, w);
  }

  /** The combine unit writing its own input states and state. */
  lemma CombineWrites(g: Graph, s: State, w: Wiring, rackOn: bool, inputs: seq<bool>, state: int)
    requires Wired(g, s, w) && HoldsRackState(s, w, rackOn) && |inputs| == |s.units[w.trunk[0]].inputs|
    ensures var s1 := Put(s, w.trunk[0], SetState(s.units[w.trunk[0]].(inputs := inputs), state));
      && Fits(g, s1) && Upstreamed(s, s1, w) && Wired(g, s1, w) && HoldsRackState(s1, w, rackOn)
      && ViewOf(s1, w) == ViewOf(s, w).(inputs := inputs, combine := state)
  {
    StillWired(g, s, Put(s, w.trunk[0], SetState(s.units[w.trunk[0]].(inputs := inputs), state)), w);
  }

  lemma CombineReports(g: Graph, s: State, w: Wiring, p: Profile, rackOn: bool, input: nat, on: bool)
    requires Wired(g, s, w) && HoldsRackState(s, w, rackOn)
    requires input < |s.units[w.trunk[0]].inputs| && p.state == StateOf(on)
    ensures var s' := SyncLine(g, s, w.trunk[0], p, UPSTREAM, input).0;
      Upstreamed(s, s', w) && ViewOf(s', w) == Report(ViewOf(s, w), rackOn, input, on)
  {
    var c := w.trunk[0];
    var unit := SetInput(s.units[c], input, on);
    if on != rackOn && (on || NoneOn(unit.inputs)) {
      var s1 := Put(s, c, SetState(unit, StateOf(on)));
      CombineWrites(g, s, w, rackOn, unit.inputs, StateOf(on));
      TrunkWalk(g, s1, w, p, rackOn);
      var s2 := ContinueSync(g, s1, c, 0, p, UPSTREAM).0;
      assert SyncLine(g, s, c, p, UPSTREAM, input).0 == s2;
      UpstreamedThen(s, s1, s2, w);
    } else {
      CombineWrites(g, s, w, rackOn, unit.inputs, unit.unitProfile.state);
      assert SetState(unit, unit.unitProfile.state) == unit;
      assert SyncLine(g, s, c, p, UPSTREAM, input).0 == Put(s, c, unit);
    }
  }

  /** The state of mainline `k` itself. */
  function LineState(s: State, w: Wiring, k: nat): int
    requires k < |w.lines| && w.lines[k] != [] && w.lines[k][0] in s.units
  {
    s.units[w.lines[k][0]].unitProfile.state
  }

  lemma MainlineReports(g: Graph, s: State, w: Wiring, rackOn: bool, k: nat, on: bool)
    requires Wired(g, s, w) && HoldsRackState(s, w, rackOn) && k < |w.lines| && LineState(s, w, k) == StateOf(on)
    ensures var s' := SyncLine(g, s, w.lines[k][0], s.global, UPSTREAM, 0).0;
      && Upstreamed(s, s', w) && !s'.units[w.lines[k][0]].upstream
      && ViewOf(s', w) == Report(ViewOf(s, w), rackOn, w.inputs[k], on)
  {
    var m := w.lines[k][0];
    var cleared := Put(s, m, s.units[m].(upstream := false));
    var p := s.global.(state := StateOf(on));
    StillWired(g, s, cleared, w);
    var s1 := ChainMarks(g, cleared, w.lines[k], w.trunk[0], w.inputs[k], p);
    assert SyncLine(g, s, m, s.global, UPSTREAM, 0) == ContinueSync(g, cleared, m, 0, p, UPSTREAM);
    MarkingIsUpstream(g, cleared, s1, w, rackOn);
    CombineReports(g, s1, w, p, rackOn, w.inputs[k], on);
    UpstreamedThen(s, cleared, s1, w);
    UpstreamedThen(s, s1, SyncLine(g, s1, w.trunk[0], p, UPSTREAM, w.inputs[k]).0, w);
  }

  // ---------------------------------------------------------------------------------------------
  // One round of reports
  // ---------------------------------------------------------------------------------------------

  predicate Within(inputs: seq<nat>, size: nat) { forall k :: 0 <= k < |inputs| ==> inputs[k] < size }

  /** The reports of lines 0 to n - 1, in order. */
  function Reports(v: View, rackOn: bool, inputs: seq<nat>, on: seq<bool>, n: nat): (r: View)
    requires n <= |inputs| == |on| && Within(inputs, |v.inputs|)
    ensures |r.inputs| == |v.inputs|
  {
    if n == 0 then v else Report(Reports(v, rackOn, inputs, on, n - 1), rackOn, inputs[n - 1], on[n - 1])
  }

  /** `on` holds the states of the mainlines. */
  predicate LinesAre(s: State, w: Wiring, on: seq<bool>) {
    && |on| == |w.lines|
    && forall k :: 0 <= k < |w.lines| ==>
         w.lines[k] != [] && w.lines[k][0] in s.units && LineState(s, w, k) == StateOf(on[k])
  }

  /** The first walk of an upstream round over the mainlines from number n on. */
  lemma FirstCopy(g: Graph, s: State, ms: seq<nat>, n: nat)
    requires Fits(g, s) && MainlinesFit(g, ms) && n < |ms|
    ensures MainlinesFit(g, ms[n..]) && MainlinesFit(g, ms[n + 1..])
    ensures SyncCopies(g, s, ms[n..], UPSTREAM) ==
      SyncCopies(g, SyncLine(g, s, ms[n], s.global, UPSTREAM, 0).0, ms[n + 1..], UPSTREAM)
  {
    assert ms[n..][1..] == ms[n + 1..];
  }

  lemma MainlineReportsNext(g: Graph, s: State, s1: State, w: Wiring, rackOn: bool, k: nat, on: bool)
    requires Wired(g, s, w) && HoldsRackState(s, w, rackOn) && Wired(g, s1, w) && Upstreamed(s, s1, w)
    requires k < |w.lines| && LineState(s, w, k) == StateOf(on)
    ensures var s2 := SyncLine(g, s1, w.lines[k][0], s1.global, UPSTREAM, 0).0;
      && Upstreamed(s, s2, w) && Upstreamed(s1, s2, w) && Wired(g, s2, w) && !s2.units[w.lines[k][0]].upstream
      && ViewOf(s2, w) == Report(ViewOf(s1, w), rackOn, w.inputs[k], on)
  {
    MainlineReports(g, s1, w, rackOn, k, on);
    var s2 := SyncLine(g, s1, w.lines[k][0], s1.global, UPSTREAM, 0).0;
    StillWired(g, s1, s2, w);
    UpstreamedThen(s, s1, s2, w);
  }

  lemma ReportsNext(v: View, rackOn: bool, inputs: seq<nat>, on: seq<bool>, n: nat)
    requires n < |inputs| == |on| && Within(inputs, |v.inputs|)
    ensures Reports(v, rackOn, inputs, on, n + 1) == Report(Reports(v, rackOn, inputs, on, n), rackOn, inputs[n], on[n])
  {
  }

  /** The first n mainlines have no upstream request waiting. */
  predicate Cleared(s: State, w: Wiring, n: nat)
    requires n <= |w.lines|
  {
    forall k :: 0 <= k < n ==> w.lines[k] != [] && w.lines[k][0] in s.units && !s.units[w.lines[k][0]].upstream
  }

  predicate NoRequests(s: State, w: Wiring) { Cleared(s, w, |w.lines|) }

  lemma ClearedNext(s: State, s': State, w: Wiring, n: nat)
    requires n < |w.lines| && Cleared(s, w, n) && Upstreamed(s, s', w)
    requires w.lines[n] != [] && w.lines[n][0] in s'.units && !s'.units[w.lines[n][0]].upstream
    ensures Cleared(s', w, n + 1)
  {
  }

  /** An upstream round from line n on, when the lines before it have reported in `s1`. */
  lemma {:induction false} RoundReports(g: Graph, s: State, s1: State, w: Wiring, rackOn: bool, on: seq<bool>, n: nat)
    requires Wired(g, s, w) && MainlinesFit(g, Mainlines(w)) && HoldsRackState(s, w, rackOn) && LinesAre(s, w, on)
    requires n <= |w.lines| && MainlinesFit(g, Mainlines(w)[n..])
    requires Wired(g, s1, w) && Upstreamed(s, s1, w) && ViewOf(s1, w) == Reports(ViewOf(s, w), rackOn, w.inputs, on, n)
    requires Cleared(s1, w, n)
    ensures var t := SyncCopies(g, s1, Mainlines(w)[n..], UPSTREAM);
      && Upstreamed(s, t, w) && Wired(g, t, w) && NoRequests(t, w)
      && ViewOf(t, w) == Reports(ViewOf(s, w), rackOn, w.inputs, on, |w.lines|)
    decreases |w.lines| - n
  {
    if n == |w.lines| {
    } else {
      FirstCopy(g, s1, Mainlines(w), n);
      ReportsNext(ViewOf(s, w), rackOn, w.inputs, on, n);
      MainlineReportsNext(g, s, s1, w, rackOn, n, on[n]);
      var s2 := SyncLine(g, s1, w.lines[n][0], s1.global, UPSTREAM, 0).0;
      ClearedNext(s1, s2, w, n);
      RoundReports(g, s, s2, w, rackOn, on, n + 1);
    }
  }

  // ---------------------------------------------------------------------------------------------
  // What the reports amount to
  // ---------------------------------------------------------------------------------------------

  predicate SomeOn(on: seq<bool>) { exists k :: 0 <= k < |on| && on[k] }

  /** What the input of line k shows after the first n reports of a round that changes `was` to `on`. */
  predicate OnAt(was: seq<bool>, on: seq<bool>, n: nat, k: nat)
    requires |was| == |on| && k < |on|
  {
    if k < n then on[k] else was[k]
  }

  predicate AllOffAt(was: seq<bool>, on: seq<bool>, n: nat)
    requires |was| == |on|
  {
    forall k: nat :: k < |on| ==> !OnAt(was, on, n, k)
  }

  /** The inputs after the first n reports; inputs that belong to no line are off. */
  predicate Shows(shown: seq<bool>, inputs: seq<nat>, was: seq<bool>, on: seq<bool>, n: nat)
    requires |inputs| == |was| == |on|
  {
    && Within(inputs, |shown|)
    && (forall j, k :: 0 <= j < k < |inputs| ==> inputs[j] != inputs[k])
    && (forall k: nat :: k < |inputs| ==> shown[inputs[k]] == OnAt(was, on, n, k))
    && (forall i :: 0 <= i < |shown| && shown[i] ==> i in inputs)
  }

  lemma ShowsNext(shown: seq<bool>, next: seq<bool>, inputs: seq<nat>, was: seq<bool>, on: seq<bool>, n: nat)
    requires 0 < n <= |inputs| == |was| == |on| && Shows(shown, inputs, was, on, n - 1)
    requires next == shown[inputs[n - 1] := on[n - 1]]
    ensures Shows(next, inputs, was, on, n)
  {
  }

  lemma ReportInputs(v: View, rackOn: bool, input: nat, on: bool)
    requires input < |v.inputs|
    ensures Report(v, rackOn, input, on).inputs == v.inputs[input := on]
  {
  }

  lemma ReportsInputs(v: View, rackOn: bool, inputs: seq<nat>, on: seq<bool>, n: nat)
    requires 0 < n <= |inputs| == |on| && Within(inputs, |v.inputs|)
    ensures Reports(v, rackOn, inputs, on, n).inputs ==
      Reports(v, rackOn, inputs, on, n - 1).inputs[inputs[n - 1] := on[n - 1]]
  {
    ReportInputs(Reports(v, rackOn, inputs, on, n - 1), rackOn, inputs[n - 1], on[n - 1]);
  }

  lemma {:induction false} InputsAfter(v: View, rackOn: bool, inputs: seq<nat>, was: seq<bool>, on: seq<bool>, n: nat)
    requires n <= |inputs| == |was| == |on| && Shows(v.inputs, inputs, was, on, 0)
    ensures Shows(Reports(v, rackOn, inputs, on, n).inputs, inputs, was, on, n)
  {
    if n == 0 {
    } else {
      InputsAfter(v, rackOn, inputs, was, on, n - 1);
      ReportsInputs(v, rackOn, inputs, on, n);
      var before, after := Reports(v, rackOn, inputs, on, n - 1), Reports(v, rackOn, inputs, on, n);
      ShowsNext(before.inputs, after.inputs, inputs, was, on, n);
    }
  }

  lemma ShowsNoneOn(shown: seq<bool>, inputs: seq<nat>, was: seq<bool>, on: seq<bool>, n: nat)
    requires |inputs| == |was| == |on| && Shows(shown, inputs, was, on, n)
    ensures NoneOn(shown) <==> AllOffAt(was, on, n)
  {
    if !AllOffAt(was, on, n) {
      var k: nat :| k < |on| && OnAt(was, on, n, k);
      assert shown[inputs[k]];
    }
    if i :| 0 <= i < |shown| && shown[i] {
      var k :| 0 <= k < |inputs| && inputs[k] == i;
      assert OnAt(was, on, n, k);
    }
  }

  /** How many of the first n lines are on. */
  function CountOn(on: seq<bool>, n: nat): nat
    requires n <= |on|
  {
    if n == 0 then 0 else CountOn(on, n - 1) + if on[n - 1] then 1 else 0
  }

  lemma {:induction false} SomeCount(on: seq<bool>, n: nat)
    requires n <= |on|
    ensures CountOn(on, n) > 0 <==> exists k :: 0 <= k < n && on[k]
  {
    if n == 0 {
    } else {
      SomeCount(on, n - 1);
    }
  }

  /** A round in which the rack is off: its state changes as soon as a line is on, and each line that is on
      triggers a cycle. */
  lemma {:induction false} OffRackRound(v: View, inputs: seq<nat>, on: seq<bool>, n: nat)
    requires n <= |inputs| == |on| && Within(inputs, |v.inputs|)
    ensures var r := Reports(v, false, inputs, on, n);
      && r.cycles == v.cycles + CountOn(on, n)
      && if exists k :: 0 <= k < n && on[k] then r.dispatch == r.combine == ACTIVE && r.requested
         else r.dispatch == v.dispatch && r.combine == v.combine && r.requested == v.requested
  {
    if n == 0 {
    } else {
      OffRackRound(v, inputs, on, n - 1);
    }
  }

  /** One of the first n reports, of a line that is off, leaves all inputs off. */
  predicate AllOffAtSomeTime(was: seq<bool>, on: seq<bool>, n: nat)
    requires n <= |was| == |on|
  {
    exists j: nat :: j < n && !on[j] && AllOffAt(was, on, j + 1)
  }

  lemma AllOffByNext(was: seq<bool>, on: seq<bool>, n: nat)
    requires n < |was| == |on|
    ensures AllOffAtSomeTime(was, on, n + 1) <==> AllOffAtSomeTime(was, on, n) || (!on[n] && AllOffAt(was, on, n + 1))
  {
  }

  /** A round in which the rack is on: its state changes as soon as a report leaves all inputs off. */
  lemma {:induction false} OnRackRound(v: View, inputs: seq<nat>, was: seq<bool>, on: seq<bool>, n: nat)
    requires n <= |inputs| == |was| == |on| && Shows(v.inputs, inputs, was, on, 0)
    ensures var r := Reports(v, true, inputs, on, n);
      && r.cycles == v.cycles
      && if AllOffAtSomeTime(was, on, n) then r.dispatch == r.combine == INACTIVE && r.requested
         else r.dispatch == v.dispatch && r.combine == v.combine && r.requested == v.requested
  {
    if n == 0 {
    } else {
      OnRackRound(v, inputs, was, on, n - 1);
      InputsAfter(v, true, inputs, was, on, n);
      ShowsNoneOn(Reports(v, true, inputs, on, n).inputs, inputs, was, on, n);
      AllOffByNext(was, on, n - 1);
    }
  }

  /** Every line that was on comes before every line that is now on. */
  predicate HandsOver(was: seq<bool>, on: seq<bool>)
    requires |was| == |on|
  {
    forall j, k :: 0 <= j < |was| && 0 <= k < |on| && was[j] && on[k] ==> j < k
  }

  /** A round that starts with a line on passes through a moment with all inputs off exactly when no line
      is on at the end, or the lines that were on all come before those that are now on. */
  lemma AllOffExactlyWhen(was: seq<bool>, on: seq<bool>)
    requires |was| == |on| && SomeOn(was)
    ensures AllOffAtSomeTime(was, on, |was|) <==> !SomeOn(on) || HandsOver(was, on)
  {
    if AllOffAtSomeTime(was, on, |was|) {
      var j: nat :| j < |was| && !on[j] && AllOffAt(was, on, j + 1);
      forall i, k | 0 <= i < |was| && 0 <= k < |on| && was[i] && on[k] ensures i < k {
        assert !OnAt(was, on, j + 1, i) && !OnAt(was, on, j + 1, k);
      }
    }
    if !SomeOn(on) {
      var j: nat := |was| - 1;
      assert !on[j] && AllOffAt(was, on, j + 1);
    } else if HandsOver(was, on) {
      var f := FirstOn(on, 0);
      var i :| 0 <= i < |was| && was[i];
      var j: nat := f - 1;
      assert !on[j] && AllOffAt(was, on, j + 1);
    }
  }

  lemma {:induction false} FirstOn(on: seq<bool>, i: nat) returns (f: nat)
    requires i <= |on| && SomeOn(on) && forall k :: 0 <= k < i ==> !on[k]
    ensures f < |on| && on[f] && forall k :: 0 <= k < f ==> !on[k]
    decreases |on| - i
  {
    if on[i] { f := i; } else { f := FirstOn(on, i + 1); }
  }

  // ---------------------------------------------------------------------------------------------
  // The rack's iteration
  // ---------------------------------------------------------------------------------------------

  predicate HasMainlines(s: State, w: Wiring) {
    forall k :: 0 <= k < |w.lines| ==> w.lines[k] != [] && w.lines[k][0] in s.units
  }

  predicate DistinctMainlines(w: Wiring) {
    forall j, k :: 0 <= j < k < |w.lines| && w.lines[j] != [] && w.lines[k] != [] ==> w.lines[j][0] != w.lines[k][0]
  }

  /** The backend and every unit hold this global state. */
  predicate GloballyIs(g: Graph, s: State, w: Wiring, state: int)
    requires Fits(g, s) && HasMainlines(s, w)
  {
    && s.global.state == state
    && MainlinesFit(g, Mainlines(w))
    && forall m <- Mainlines(w), v <- Visits(g, m) :: s.units[v].globalProfile.state == state
  }

  /** The rack agrees with its lines: input inputs[k] is on exactly when line k is, no other input is,
      the state is active everywhere exactly when some line is, and no request is waiting. */
  ghost predicate Agreement(g: Graph, s: State, w: Wiring, on: seq<bool>) {
    && Wired(g, s, w) && DistinctMainlines(w) && LinesAre(s, w, on)
    && Shows(s.units[w.trunk[0]].inputs, w.inputs, on, on, 0)
    && GloballyIs(g, s, w, StateOf(SomeOn(on)))
    && s.units[w.d].unitProfile.state == s.units[w.trunk[0]].unitProfile.state == StateOf(SomeOn(on))
    && s.flags == NONE
  }

  lemma WiredUnits(g: Graph, s: State, w: Wiring)
    requires Wired(g, s, w)
    ensures HasMainlines(s, w) && MainlinesFit(g, Mainlines(w)) && AllEndIn(g, s, Mainlines(w), w.d)
    ensures w.d !in Mainlines(w) && Mainlines(w) != []
  {
    AllWiredEndIn(g, s, w);
  }

  lemma RackStateHeld(g: Graph, s: State, w: Wiring, rackOn: bool)
    requires Wired(g, s, w) && HasMainlines(s, w) && GloballyIs(g, s, w, StateOf(rackOn))
    ensures HoldsRackState(s, w, rackOn)
  {
    WiredEndsIn(g, s, w, 0);
    assert Mainlines(w)[0] == w.lines[0][0];
    var vs := Visits(g, w.lines[0][0]);
    assert w.trunk[0] in w.trunk && w.trunk[0] in vs && w.d in vs;
  }

  /** The parts of the state that agreement speaks about are the same. */
  predicate SameGlobals(s: State, s': State) {
    && s'.units.Keys == s.units.Keys && s'.global == s.global
    && forall u <- s.units :: s'.units[u].globalProfile == s.units[u].globalProfile
  }

  /** Wiring, lines, inputs and requests are the same: only profiles that a sync writes differ. */
  lemma ProfilesKeepLines(g: Graph, s: State, s': State, w: Wiring, on: seq<bool>)
    requires Wired(g, s, w) && Fits(g, s') && OnlyProfiles(s, s') && LinesAre(s, w, on)
    ensures Wired(g, s', w) && LinesAre(s', w, on) && ViewOf(s', w) == ViewOf(s, w)
  {
    StillLeads(g, s, s', w.trunk, w.d, w.trunkInput);
    forall k | 0 <= k < |w.lines| ensures Leads(g, s', w.lines[k], w.trunk[0], w.inputs[k]) {
      StillLeads(g, s, s', w.lines[k], w.trunk[0], w.inputs[k]);
    }
  }

  lemma LinesStay(s: State, s': State, w: Wiring, on: seq<bool>)
    requires LinesAre(s, w, on) && Upstreamed(s, s', w)
    requires forall k :: 0 <= k < |w.lines| ==> s.units[w.lines[k][0]].kind.Mainline?
    ensures LinesAre(s', w, on)
  {
  }

  lemma CycleKeeps(g: Graph, s: State, w: Wiring, on: seq<bool>)
    requires Wired(g, s, w) && LinesAre(s, w, on) && MainlinesFit(g, Mainlines(w))
    ensures var s' := Cycle(g, s, Mainlines(w));
      && Wired(g, s', w) && LinesAre(s', w, on) && ViewOf(s', w) == ViewOf(s, w) && SameGlobals(s, s')
      && s'.flags == s.flags && (NoRequests(s, w) ==> NoRequests(s', w))
  {
    WiredUnits(g, s, w);
    CycleSyncs(g, s, Mainlines(w), w.d);
    ProfilesKeepLines(g, s, Cycle(g, s, Mainlines(w)), w, on);
  }

  lemma AllReports(g: Graph, s: State, w: Wiring, rackOn: bool, on: seq<bool>)
    requires Wired(g, s, w) && MainlinesFit(g, Mainlines(w)) && HoldsRackState(s, w, rackOn) && LinesAre(s, w, on)
    ensures var t := SyncCopies(g, s, Mainlines(w), UPSTREAM);
      && Wired(g, t, w) && LinesAre(t, w, on) && Upstreamed(s, t, w) && NoRequests(t, w)
      && ViewOf(t, w) == Reports(ViewOf(s, w), rackOn, w.inputs, on, |w.lines|)
  {
    assert Mainlines(w)[0..] == Mainlines(w);
    RoundReports(g, s, s, w, rackOn, on, 0);
    LinesStay(s, SyncCopies(g, s, Mainlines(w), UPSTREAM), w, on);
  }

  lemma UpstreamPart(g: Graph, s: State, w: Wiring, rackOn: bool, on: seq<bool>)
    requires Wired(g, s, w) && MainlinesFit(g, Mainlines(w)) && HoldsRackState(s, w, rackOn) && LinesAre(s, w, on)
    requires s.flags == UPSTREAM
    ensures var t := AfterUpstream(g, s, Mainlines(w));
      && Wired(g, t, w) && LinesAre(t, w, on) && SameGlobals(s, t) && NoRequests(t, w)
      && ViewOf(t, w) == Reports(ViewOf(s, w), rackOn, w.inputs, on, |w.lines|)
      && t.flags == NONE.(glob := t.flags.glob)
  {
    AllReports(g, s, w, rackOn, on);
    var t0 := SyncCopies(g, s, Mainlines(w), UPSTREAM);
    CycleKeeps(g, t0, w, on);
    SameUnitsWired(g, Cycle(g, t0, Mainlines(w)), AfterUpstream(g, s, Mainlines(w)), w, on);
  }

  /** The rest of the iteration: the requested global sync, or none. */
  lemma GlobalPart(g: Graph, t: State, w: Wiring, on: seq<bool>, rackOn: bool)
    requires Wired(g, t, w) && LinesAre(t, w, on) && HasMainlines(t, w) && MainlinesFit(g, Mainlines(w))
    requires t.flags == NONE.(glob := t.flags.glob)
    requires if t.flags.glob then t.units[w.d].unitProfile.state == StateOf(rackOn)
             else GloballyIs(g, t, w, StateOf(rackOn))
    ensures var s' := Sync(g, t, Mainlines(w), t.flags);
      && Wired(g, s', w) && LinesAre(s', w, on) && HasMainlines(s', w)
      && ViewOf(s', w) == ViewOf(t, w) && (NoRequests(t, w) ==> NoRequests(s', w))
      && GloballyIs(g, s', w, StateOf(rackOn))
  {
    WiredUnits(g, t, w);
    var s' := Sync(g, t, Mainlines(w), t.flags);
    if t.flags.glob {
      GlobalSyncAgrees(g, t, Mainlines(w), t.flags, w.d);
      ProfilesKeepLines(g, t, s', w, on);
      assert ViewOf(s', w) == ViewOf(t, w);
    } else {
      CycleKeeps(g, t, w, on);
      assert ViewOf(s', w) == ViewOf(t, w);
    }
  }

  /** The state the rack ends up in. */
  predicate EndsOn(was: seq<bool>, on: seq<bool>)
    requires |was| == |on|
  {
    if SomeOn(was) then SomeOn(on) && !HandsOver(was, on) else SomeOn(on)
  }

  lemma RoundEnds(v: View, inputs: seq<nat>, was: seq<bool>, on: seq<bool>)
    requires |inputs| == |was| == |on| && Shows(v.inputs, inputs, was, was, 0)
    requires v.dispatch == v.combine == StateOf(SomeOn(was)) && !v.requested
    ensures var r := Reports(v, SomeOn(was), inputs, on, |inputs|);
      && Shows(r.inputs, inputs, on, on, 0)
      && r.dispatch == r.combine == StateOf(EndsOn(was, on))
      && r.cycles == v.cycles + (if SomeOn(was) then 0 else CountOn(on, |on|))
      && (!r.requested ==> EndsOn(was, on) == SomeOn(was))
  {
    var n := |inputs|;
    assert Shows(v.inputs, inputs, was, on, 0) by {
      forall k: nat | k < n ensures OnAt(was, was, 0, k) == OnAt(was, on, 0, k) {}
    }
    InputsAfter(v, SomeOn(was), inputs, was, on, n);
    assert Shows(Reports(v, SomeOn(was), inputs, on, n).inputs, inputs, on, on, 0) by {
      forall k: nat | k < n ensures OnAt(was, on, n, k) == OnAt(on, on, 0, k) {}
    }
    if SomeOn(was) {
      OnRackRound(v, inputs, was, on, n);
      AllOffExactlyWhen(was, on);
    } else {
      OffRackRound(v, inputs, on, n);
    }
  }

  /** The upstream part of an iteration: inputs show the lines, the combine unit and the dispatch have the state
      that `EndsOn` gives, and a global sync has been asked for if that is another one. */
  lemma UpstreamEnds(g: Graph, s: State, w: Wiring, was: seq<bool>, on: seq<bool>)
    requires Wired(g, s, w) && HasMainlines(s, w) && LinesAre(s, w, on) && |was| == |on|
    requires Shows(s.units[w.trunk[0]].inputs, w.inputs, was, was, 0)
    requires GloballyIs(g, s, w, StateOf(SomeOn(was))) && s.units[w.d].unitProfile.state == StateOf(SomeOn(was))
    requires s.units[w.trunk[0]].unitProfile.state == StateOf(SomeOn(was))
    requires s.flags == UPSTREAM && MainlinesFit(g, Mainlines(w))
    ensures var t := AfterUpstream(g, s, Mainlines(w));
      && Wired(g, t, w) && LinesAre(t, w, on) && HasMainlines(t, w) && NoRequests(t, w)
      && Shows(ViewOf(t, w).inputs, w.inputs, on, on, 0)
      && ViewOf(t, w).dispatch == ViewOf(t, w).combine == StateOf(EndsOn(was, on))
      && t.cycles == s.cycles + (if SomeOn(was) then 0 else CountOn(on, |on|))
      && t.flags == NONE.(glob := t.flags.glob)
      && (!t.flags.glob ==> GloballyIs(g, t, w, StateOf(EndsOn(was, on))))
  {
    RackStateHeld(g, s, w, SomeOn(was));
    UpstreamPart(g, s, w, SomeOn(was), on);
    RoundEnds(ViewOf(s, w), w.inputs, was, on);
    WiredUnits(g, AfterUpstream(g, s, Mainlines(w)), w);
  }

  /** One iteration after any changes of the lines: inputs show the lines, the state is the one that
      `EndsOn` gives, no request is left, and a rack that was off has a cycle more to run for each line that
      is on. */
  lemma IterationEnds(g: Graph, s: State, w: Wiring, was: seq<bool>, on: seq<bool>)
    requires Wired(g, s, w) && HasMainlines(s, w) && LinesAre(s, w, on) && |was| == |on|
    requires Shows(s.units[w.trunk[0]].inputs, w.inputs, was, was, 0)
    requires GloballyIs(g, s, w, StateOf(SomeOn(was))) && s.units[w.d].unitProfile.state == StateOf(SomeOn(was))
    requires s.units[w.trunk[0]].unitProfile.state == StateOf(SomeOn(was))
    requires s.flags == UPSTREAM && s.resync
    ensures var s' := Iterate(g, s, Mainlines(w));
      && Wired(g, s', w) && LinesAre(s', w, on) && HasMainlines(s', w)
      && Shows(s'.units[w.trunk[0]].inputs, w.inputs, on, on, 0)
      && GloballyIs(g, s', w, StateOf(EndsOn(was, on)))
      && s'.units[w.d].unitProfile.state == s'.units[w.trunk[0]].unitProfile.state == StateOf(EndsOn(was, on))
      && s'.flags == NONE && !s'.resync && NoRequests(s', w)
      && s'.cycles == s.cycles - 1 + (if SomeOn(was) then 0 else CountOn(on, |on|))
  {
    var ms := Mainlines(w);
    UpstreamEnds(g, s, w, was, on);
    var t := AfterUpstream(g, s, ms);
    GlobalPart(g, t, w, on, EndsOn(was, on));
    var s1 := Sync(g, t, ms, t.flags);
    SameUnitsWired(g, s1, Iterate(g, s, ms), w, on);
  }

  lemma SameUnitsWired(g: Graph, s: State, s': State, w: Wiring, on: seq<bool>)
    requires Wired(g, s, w) && LinesAre(s, w, on) && s'.units == s.units
    ensures Wired(g, s', w) && LinesAre(s', w, on)
  {
    StillLeads(g, s, s', w.trunk, w.d, w.trunkInput);
    forall k | 0 <= k < |w.lines| ensures Leads(g, s', w.lines[k], w.trunk[0], w.inputs[k]) {
      StillLeads(g, s, s', w.lines[k], w.trunk[0], w.inputs[k]);
    }
  }

  // ---------------------------------------------------------------------------------------------
  // Switching lines, and the protocol as a whole
  // ---------------------------------------------------------------------------------------------

  /** A mainline takes a new state and asks for an upstream sync. */
  function Switch(s: State, m: nat, on: bool): State
    requires m in s.units
  {
    UnitTriggerSync(Put(s, m, SetState(s.units[m], StateOf(on))), m, UPSTREAM)
  }

  /** A line and the state it is switched to. */
  datatype Change = Change(line: nat, on: bool)

  predicate ChangesFit(changes: seq<Change>, n: nat) {
    forall i :: 0 <= i < |changes| ==> changes[i].line < n
  }

  /** Any number of lines switch, one after the other. */
  function SwitchAll(s: State, w: Wiring, changes: seq<Change>): (r: State)
    requires ChangesFit(changes, |w.lines|) && HasMainlines(s, w)
    ensures r.units.Keys == s.units.Keys
  {
    if changes == [] then s
    else
      var last := changes[|changes| - 1];
      Switch(SwitchAll(s, w, changes[..|changes| - 1]), w.lines[last.line][0], last.on)
  }

  /** The states of the lines after the changes. */
  function LinesAfter(was: seq<bool>, changes: seq<Change>): (on: seq<bool>)
    requires ChangesFit(changes, |was|)
    ensures |on| == |was|
  {
    if changes == [] then was
    else
      var last := changes[|changes| - 1];
      LinesAfter(was, changes[..|changes| - 1])[last.line := last.on]
  }

  /** What switching leaves alone. */
  predicate Switched(s: State, s': State) {
    && s'.units.Keys == s.units.Keys && s'.global == s.global && s'.cycles == s.cycles
    && forall u <- s.units ::
         if s.units[u].kind.Mainline? then
           s'.units[u] == SetState(s.units[u], s'.units[u].unitProfile.state).(upstream := s'.units[u].upstream)
         else s'.units[u] == s.units[u]
  }

  lemma SwitchOne(s: State, w: Wiring, on: seq<bool>, change: Change)
    requires HasMainlines(s, w) && DistinctMainlines(w) && LinesAre(s, w, on) && change.line < |w.lines|
    requires s.units[w.lines[change.line][0]].kind.Mainline?
    ensures var s' := Switch(s, w.lines[change.line][0], change.on);
      && Switched(s, s') && LinesAre(s', w, on[change.line := change.on])
      && s'.flags == s.flags.(upstream := true) && s'.resync
  {
  }

  lemma SwitchedThen(s: State, s1: State, s2: State)
    requires Switched(s, s1) && Switched(s1, s2)
    ensures Switched(s, s2)
  {
  }

  lemma {:induction false} SwitchAllEffect(s: State, w: Wiring, was: seq<bool>, changes: seq<Change>)
    requires HasMainlines(s, w) && DistinctMainlines(w) && LinesAre(s, w, was) && ChangesFit(changes, |w.lines|)
    requires forall k :: 0 <= k < |w.lines| ==> s.units[w.lines[k][0]].kind.Mainline?
    requires s.flags == NONE
    ensures var s' := SwitchAll(s, w, changes);
      && Switched(s, s') && LinesAre(s', w, LinesAfter(was, changes))
      && (changes != [] ==> s'.flags == UPSTREAM && s'.resync) && (changes == [] ==> s'.flags == NONE)
    decreases |changes|
  {
    if changes == [] {
    } else {
      var front := changes[..|changes| - 1];
      SwitchAllEffect(s, w, was, front);
      var s1 := SwitchAll(s, w, front);
      SwitchOne(s1, w, LinesAfter(was, front), changes[|changes| - 1]);
      SwitchedThen(s, s1, SwitchAll(s, w, changes));
    }
  }

  lemma SwitchedKeeps(g: Graph, s: State, s': State, w: Wiring, was: seq<bool>)
    requires Agreement(g, s, w, was) && Switched(s, s')
    ensures Wired(g, s', w) && HasMainlines(s', w) && GloballyIs(g, s', w, StateOf(SomeOn(was)))
    ensures ViewOf(s', w) == ViewOf(s, w).(requested := s'.flags.glob)
  {
    StillLeads(g, s, s', w.trunk, w.d, w.trunkInput);
    forall k | 0 <= k < |w.lines| ensures Leads(g, s', w.lines[k], w.trunk[0], w.inputs[k]) {
      StillLeads(g, s, s', w.lines[k], w.trunk[0], w.inputs[k]);
    }
  }

  /** The protocol: from agreement, after any switching of lines, one iteration of the rack thread
      brings agreement back unless some line was on, some line is on now, and every line that was on is
      walked before every line that is on now. The global sync the dispatch asks for is part of that
      same iteration. */
  lemma IterationRestoresAgreement(g: Graph, s: State, w: Wiring, was: seq<bool>, changes: seq<Change>)
    requires Agreement(g, s, w, was) && HasMainlines(s, w) && ChangesFit(changes, |w.lines|) && changes != []
    ensures var on := LinesAfter(was, changes);
      && MainlinesFit(g, Mainlines(w))
      && var s' := Iterate(g, SwitchAll(s, w, changes), Mainlines(w));
         Agreement(g, s', w, on) <==> !Loses(was, on)
  {
    var on := LinesAfter(was, changes);
    var s1 := SwitchAll(s, w, changes);
    SwitchAllEffect(s, w, was, changes);
    SwitchedKeeps(g, s, s1, w, was);
    IterationEnds(g, s1, w, was, on);
    assert EndsOn(was, on) == SomeOn(on) <==> !(SomeOn(was) && SomeOn(on) && HandsOver(was, on));
  }

  /** A rack that comes on goes on cycling: one cycle is run in the iteration, and every line that is on has
      triggered one. A rack that was on runs its cycles down unless its driver triggers more. */
  lemma IterationCycles(g: Graph, s: State, w: Wiring, was: seq<bool>, changes: seq<Change>)
    requires Agreement(g, s, w, was) && HasMainlines(s, w) && ChangesFit(changes, |w.lines|) && changes != []
    ensures MainlinesFit(g, Mainlines(w))
    ensures var on := LinesAfter(was, changes);
      var s' := Iterate(g, SwitchAll(s, w, changes), Mainlines(w));
      && s'.cycles == s.cycles - 1 + (if SomeOn(was) then 0 else CountOn(on, |on|))
      && (!SomeOn(was) && SomeOn(on) ==> s'.cycles >= s.cycles)
  {
    var on := LinesAfter(was, changes);
    var s1 := SwitchAll(s, w, changes);
    SwitchAllEffect(s, w, was, changes);
    SwitchedKeeps(g, s, s1, w, was);
    IterationEnds(g, s1, w, was, on);
    SomeCount(on, |on|);
  }

  /** Changes in one direction never lose agreement. */
  lemma SameDirectionRestores(g: Graph, s: State, w: Wiring, was: seq<bool>, changes: seq<Change>, direction: bool)
    requires Agreement(g, s, w, was) && HasMainlines(s, w) && ChangesFit(changes, |w.lines|) && changes != []
    requires forall i :: 0 <= i < |changes| ==> changes[i].on == direction
    ensures MainlinesFit(g, Mainlines(w))
    ensures Agreement(g, Iterate(g, SwitchAll(s, w, changes), Mainlines(w)), w, LinesAfter(was, changes))
  {
    IterationRestoresAgreement(g, s, w, was, changes);
    var on := LinesAfter(was, changes);
    OneDirection(was, changes, direction);
    if SomeOn(was) && SomeOn(on) {
      if direction {
        var k :| 0 <= k < |was| && was[k];
        assert was[k] && on[k];
      } else {
        var k :| 0 <= k < |on| && on[k];
        assert was[k] && on[k];
      }
    }
  }

  lemma {:induction false} OneDirection(was: seq<bool>, changes: seq<Change>, direction: bool)
    requires ChangesFit(changes, |was|) && forall i :: 0 <= i < |changes| ==> changes[i].on == direction
    ensures forall k :: 0 <= k < |was| ==>
      var on := LinesAfter(was, changes); if direction then was[k] ==> on[k] else on[k] ==> was[k]
    decreases |changes|
  {
    if changes == [] {
    } else {
      OneDirection(was, changes[..|changes| - 1], direction);
    }
  }

  // ---------------------------------------------------------------------------------------------
  // Round after round
  // ---------------------------------------------------------------------------------------------

  /** A round that loses agreement. */
  predicate Loses(was: seq<bool>, on: seq<bool>)
    requires |was| == |on|
  {
    SomeOn(was) && SomeOn(on) && HandsOver(was, on)
  }

  predicate RoundsFit(rounds: seq<seq<Change>>, n: nat) { forall changes <- rounds :: ChangesFit(changes, n) }

  /** In each round some lines switch, and the rack thread iterates once. */
  function AfterRounds(g: Graph, s: State, w: Wiring, rounds: seq<seq<Change>>): (r: State)
    requires Fits(g, s) && HasMainlines(s, w) && MainlinesFit(g, Mainlines(w)) && RoundsFit(rounds, |w.lines|)
    ensures Fits(g, r) && HasMainlines(r, w)
    decreases |rounds|
  {
    if rounds == [] then s
    else
      var before := AfterRounds(g, s, w, rounds[..|rounds| - 1]);
      Iterate(g, SwitchAll(before, w, rounds[|rounds| - 1]), Mainlines(w))
  }

  function LinesAfterRounds(was: seq<bool>, rounds: seq<seq<Change>>): (on: seq<bool>)
    requires RoundsFit(rounds, |was|)
    ensures |on| == |was|
  {
    if rounds == [] then was else LinesAfter(LinesAfterRounds(was, rounds[..|rounds| - 1]), rounds[|rounds| - 1])
  }

  /** No round hands over from lines that are all walked before the ones that come on. */
  predicate NoRoundLoses(was: seq<bool>, rounds: seq<seq<Change>>)
    requires RoundsFit(rounds, |was|)
    decreases |rounds|
  {
    rounds == [] ||
    (NoRoundLoses(was, rounds[..|rounds| - 1]) &&
      !Loses(LinesAfterRounds(was, rounds[..|rounds| - 1]), LinesAfterRounds(was, rounds)))
  }

  /** An iteration in which no line has switched. */
  lemma QuietIteration(g: Graph, s: State, w: Wiring, was: seq<bool>)
    requires Agreement(g, s, w, was) && HasMainlines(s, w)
    ensures MainlinesFit(g, Mainlines(w)) && Agreement(g, Iterate(g, s, Mainlines(w)), w, was)
  {
    WiredUnits(g, s, w);
    CycleKeeps(g, s, w, was);
    var t := if s.resync then Cycle(g, s, Mainlines(w)) else s;
    var s' := Iterate(g, s, Mainlines(w));
    SameUnitsWired(g, t, s', w, was);
    assert ViewOf(t, w) == ViewOf(s, w) && s'.units == t.units && s'.global == t.global;
  }

  /** From agreement, any number of rounds of which none loses it ends in agreement. */
  lemma {:induction false} RoundsKeepAgreement(g: Graph, s: State, w: Wiring, was: seq<bool>, rounds: seq<seq<Change>>)
    requires Agreement(g, s, w, was) && HasMainlines(s, w) && MainlinesFit(g, Mainlines(w))
    requires RoundsFit(rounds, |w.lines|) && NoRoundLoses(was, rounds)
    ensures Agreement(g, AfterRounds(g, s, w, rounds), w, LinesAfterRounds(was, rounds))
    decreases |rounds|
  {
    if rounds == [] {
    } else {
      var front, last := rounds[..|rounds| - 1], rounds[|rounds| - 1];
      RoundsKeepAgreement(g, s, w, was, front);
      var before := AfterRounds(g, s, w, front);
      if last == [] {
        QuietIteration(g, before, w, LinesAfterRounds(was, front));
      } else {
        IterationRestoresAgreement(g, before, w, LinesAfterRounds(was, front), last);
      }
    }
  }

  /** In each round all switching goes one way, not necessarily the same in all rounds. */
  predicate OneWayRounds(rounds: seq<seq<Change>>) { forall changes <- rounds :: OneWay(changes) }

  predicate OneWay(changes: seq<Change>) {
    forall i, j :: 0 <= i < |changes| && 0 <= j < |changes| ==> changes[i].on == changes[j].on
  }

  lemma OneWayDoesNotLose(was: seq<bool>, changes: seq<Change>)
    requires ChangesFit(changes, |was|)
    requires OneWay(changes)
    ensures !Loses(was, LinesAfter(was, changes))
  {
    var on := LinesAfter(was, changes);
    var direction := changes != [] && changes[0].on;
    OneDirection(was, changes, direction);
    if SomeOn(was) && SomeOn(on) {
      var k :| 0 <= k < |was| && if direction then was[k] else on[k];
      assert was[k] && on[k];
    }
  }

  lemma {:induction false} OneWayNeverLoses(was: seq<bool>, rounds: seq<seq<Change>>)
    requires RoundsFit(rounds, |was|) && OneWayRounds(rounds)
    ensures NoRoundLoses(was, rounds)
    decreases |rounds|
  {
    if rounds == [] {
    } else {
      OneWayNeverLoses(was, rounds[..|rounds| - 1]);
      OneWayDoesNotLose(LinesAfterRounds(was, rounds[..|rounds| - 1]), rounds[|rounds| - 1]);
    }
  }

  /** Whenever every round switches lines one way only, agreement holds after all of them. */
  lemma OneWayRoundsKeepAgreement(g: Graph, s: State, w: Wiring, was: seq<bool>, rounds: seq<seq<Change>>)
    requires Agreement(g, s, w, was) && HasMainlines(s, w) && MainlinesFit(g, Mainlines(w))
    requires RoundsFit(rounds, |w.lines|) && OneWayRounds(rounds)
    ensures Agreement(g, AfterRounds(g, s, w, rounds), w, LinesAfterRounds(was, rounds))
  {
    OneWayNeverLoses(was, rounds);
    RoundsKeepAgreement(g, s, w, was, rounds);
  }

  // ---------------------------------------------------------------------------------------------
  // A hand-over that is lost
  // ---------------------------------------------------------------------------------------------

  const ZERO := Profile(0, 0, 0, 0, 0, 0.0, 0, 0, 0)

  function Idle(kind: Kind, state: int, global: int, inputs: seq<bool>): Unit {
    Unit(kind, ZERO.(state := state), ZERO, ZERO.(state := global), false, inputs)
  }

  /** Two mainlines 0 and 1, the combine unit 2 and the dispatch unit 3. */
  const TWO_LINES := Graph(
    map[0 := [Link(true, 2, 0)], 1 := [Link(true, 2, 1)], 2 := [Link(true, 3, 0)], 3 := []],
    map[0 := 2, 1 := 2, 2 := 1, 3 := 0])

  const TWO_LINES_WIRING := Wiring([[0], [1]], [0, 1], [2], 0, 3)

  /** Line 0 is on, line 1 is off. */
  const FIRST_LINE_ON := State(
    map[0 := Idle(Mainline, ACTIVE, ACTIVE, []), 1 := Idle(Mainline, INACTIVE, ACTIVE, []),
        2 := Idle(Combine, ACTIVE, ACTIVE, [true, false]), 3 := Idle(Dispatch, ACTIVE, ACTIVE, [])],
    ZERO.(state := ACTIVE), false, NONE, 0)

  lemma TwoLinesWired()
    ensures Wired(TWO_LINES, FIRST_LINE_ON, TWO_LINES_WIRING) && HasMainlines(FIRST_LINE_ON, TWO_LINES_WIRING)
  {
    var g, s, w := TWO_LINES, FIRST_LINE_ON, TWO_LINES_WIRING;
    assert g.outs[0][0] == Link(true, 2, 0) && g.outs[1][0] == Link(true, 2, 1) && g.outs[2][0] == Link(true, 3, 0);
    assert SingleOutput(g, 0, Link(true, 2, 0)) && SingleOutput(g, 1, Link(true, 2, 1)) &&
      SingleOutput(g, 2, Link(true, 3, 0));
  }

  lemma AllUnitsHold(g: Graph, s: State, w: Wiring, state: int)
    requires Wired(g, s, w) && HasMainlines(s, w) && s.global.state == state
    requires forall u <- s.units :: s.units[u].globalProfile.state == state
    ensures GloballyIs(g, s, w, state)
  {
    WiredUnits(g, s, w);
    forall m <- Mainlines(w), v <- Visits(g, m) ensures s.units[v].globalProfile.state == state {
      assert v in g.outs;
    }
  }

  lemma TwoLinesShown()
    ensures Shows([true, false], TWO_LINES_WIRING.inputs, [true, false], [true, false], 0)
  {
    assert TWO_LINES_WIRING.inputs[0] == 0 && TWO_LINES_WIRING.inputs[1] == 1;
  }

  lemma TwoLinesAre()
    ensures LinesAre(FIRST_LINE_ON, TWO_LINES_WIRING, [true, false]) && DistinctMainlines(TWO_LINES_WIRING)
  {
  }

  lemma TwoLinesHold()
    ensures Wired(TWO_LINES, FIRST_LINE_ON, TWO_LINES_WIRING) &&
      GloballyIs(TWO_LINES, FIRST_LINE_ON, TWO_LINES_WIRING, ACTIVE)
  {
    TwoLinesWired();
    AllUnitsHold(TWO_LINES, FIRST_LINE_ON, TWO_LINES_WIRING, ACTIVE);
  }

  lemma TwoLinesAgree()
    ensures HasMainlines(FIRST_LINE_ON, TWO_LINES_WIRING) &&
      Agreement(TWO_LINES, FIRST_LINE_ON, TWO_LINES_WIRING, [true, false])
  {
    TwoLinesWired();
    TwoLinesAre();
    TwoLinesShown();
    TwoLinesHold();
    assert [true, false][0] && SomeOn([true, false]);
  }

  lemma TwoLinesHandOver()
    ensures LinesAfter([true, false], [Change(0, false), Change(1, true)]) == [false, true]
    ensures SomeOn([true, false]) && SomeOn([false, true]) && HandsOver([true, false], [false, true])
  {
    var was, changes := [true, false], [Change(0, false), Change(1, true)];
    assert changes[..1] == [Change(0, false)] && changes[..1][..0] == [];
    assert LinesAfter(was, changes[..1]) == [false, false];
    assert was[0] && [false, true][1];
  }

  lemma HandOverLoses(g: Graph, s: State, w: Wiring, was: seq<bool>, changes: seq<Change>)
    requires Agreement(g, s, w, was) && HasMainlines(s, w) && ChangesFit(changes, |w.lines|) && changes != []
    requires SomeOn(was) && SomeOn(LinesAfter(was, changes)) &&
      HandsOver(was, LinesAfter(was, changes))
    ensures MainlinesFit(g, Mainlines(w))
    ensures !Agreement(g, Iterate(g, SwitchAll(s, w, changes), Mainlines(w)), w, LinesAfter(was, changes))
  {
    IterationRestoresAgreement(g, s, w, was, changes);
  }

  /** Some rack ends up not agreeing with its lines: line 0 goes off and line 1 comes on in the same round. */
  lemma HandOverIsLost() returns (g: Graph, s: State, w: Wiring)
    ensures HasMainlines(s, w) && Agreement(g, s, w, [true, false]) && MainlinesFit(g, Mainlines(w))
    ensures var changes := [Change(0, false), Change(1, true)];
      && LinesAfter([true, false], changes) == [false, true]
      && !Agreement(g, Iterate(g, SwitchAll(s, w, changes), Mainlines(w)), w, [false, true])
  {
    g, s, w := TWO_LINES, FIRST_LINE_ON, TWO_LINES_WIRING;
    TwoLinesAgree();
    TwoLinesHandOver();
    HandOverLoses(g, s, w, [true, false], [Change(0, false), Change(1, true)]);
  }
}
