/** Syncing a rack: a profile travels by reference down the graph of connected units, is changed on
    the way, and is copied into the units on the way back up. The same walk serves three purposes:
    profiling a line, passing a changed line state upstream to downstream, and agreeing on the
    rack-wide profile.

    A reference to a profile is modelled as an argument that comes back as a result: the profile a
    walk works on (a unit's line profile, the backend's global profile, or a local copy) is read
    by nobody else while the graph is acyclic. */
module UnitSync {
  // The values of line_state; a state is an int in the source and may hold any value.
  const INACTIVE := 0
  const ACTIVE := 1
  const FLUSHING := 2

  datatype Kind = Mainline | Step | Combine | Split | Dispatch

  datatype Profile = Profile(latency: int, channels: int, period: int, fs: int, bpm: int, drift: real,
                             jumps: int, state: int, fill: int)

  /** The bits of sync_flag. */
  datatype Flags = Flags(source: bool, duration: bool, glob: bool, upstream: bool, downstream: bool)

  const NONE := Flags(false, false, false, false, false)
  const SOURCE := NONE.(source := true)
  const UPSTREAM := NONE.(upstream := true)
  const GLOB := NONE.(glob := true)

  datatype Unit = Unit(
    kind: Kind,
    unitProfile: Profile,
    lineProfile: Profile,
    globalProfile: Profile,
    upstream: bool,         // this unit has requested an upstream sync
    inputs: seq<bool>)      // input states of a combine unit

  /** What a rack changes while it runs: its units, the backend's global profile, and the requests
      waiting for the rack thread. */
  datatype State = State(units: map<nat, Unit>, global: Profile, resync: bool, flags: Flags, cycles: int)

  /** An output of a unit and the input it leads to. */
  datatype Link = Link(connected: bool, to: nat, input: nat)

  /** The outputs of every unit; the ranks witness that the graph has no cycle. */
  datatype Graph = Graph(outs: map<nat, seq<Link>>, rank: map<nat, nat>)

  predicate Acyclic(g: Graph) {
    && g.outs.Keys == g.rank.Keys
    && forall u <- g.outs, i: nat :: i < |g.outs[u]| && g.outs[u][i].connected ==>
         g.outs[u][i].to in g.outs && g.rank[g.outs[u][i].to] < g.rank[u]
  }

  predicate Fits(g: Graph, s: State) {
    Acyclic(g) && s.units.Keys == g.outs.Keys
  }

  // ---------------------------------------------------------------------------------------------
  // The walk down the units
  // ---------------------------------------------------------------------------------------------

  /** `apply_unit_profile`: what a unit adds to the profile passing through it. */
  function Apply(unit: Profile, p: Profile): Profile {
    p.(channels := if unit.channels > 0 then unit.channels else p.channels,
       period := if unit.period > 0 && p.period < unit.period then unit.period else p.period,
       fs := if unit.fs > 0 then unit.fs else p.fs,
       bpm := if unit.bpm > 0 then unit.bpm else p.bpm,
       fill := if unit.fill > 0 && p.fill < unit.fill then unit.fill else p.fill,
       state := if unit.state == FLUSHING then FLUSHING else p.state,
       jumps := p.jumps + 1,
       drift := AddDrift(unit.drift, p.drift),
       latency := p.latency + unit.latency)
  }

  function AddDrift(unit: real, drift: real): real {
    if unit == 0.0 then drift
    else if drift > 0.0 then drift + drift * unit
    else if drift < 0.0 then drift + (drift * -1.0) * unit
    else unit
  }

  /** A flushing line is read as an active one. */
  function Unflushed(p: Profile): Profile {
    if p.state == FLUSHING then p.(state := ACTIVE) else p
  }

  /** The global profile of a unit after a global sync that came back with `p`. */
  function StoreGlobal(old_: Profile, p: Profile): Profile {
    old_.(fs := p.fs, channels := p.channels, period := p.period, state := p.state, bpm := p.bpm, fill := p.fill)
  }

  function Put(s: State, u: nat, unit: Unit): State {
    s.(units := s.units[u := unit])
  }

  /** The rack's `trigger_sync`: requests accumulate. */
  function RackTriggerSync(s: State, f: Flags): State {
    s.(flags := Flags(s.flags.source || f.source, s.flags.duration || f.duration, s.flags.glob || f.glob,
                      s.flags.upstream || f.upstream, s.flags.downstream || f.downstream),
       resync := true)
  }

  /** A unit's `trigger_sync`: an upstream request is also remembered by the unit. */
  function UnitTriggerSync(s: State, u: nat, f: Flags): State
    requires u in s.units
  {
    RackTriggerSync(if f.upstream then Put(s, u, s.units[u].(upstream := true)) else s, f)
  }

  /** `sync_line`, as the kind of the unit overrides it. */
  function SyncLine(g: Graph, s: State, u: nat, p: Profile, f: Flags, line: nat): (r: (State, Profile))
    requires Fits(g, s) && u in g.outs
    ensures Fits(g, r.0)
    decreases g.rank[u], 3
  {
    var unit := s.units[u];
    if f.upstream && unit.kind.Mainline? then
      ContinueSync(g, Put(s, u, unit.(upstream := false)), u, 0, p.(state := unit.unitProfile.state), f)
    else if f.upstream && unit.kind.Combine? then
      CombineUpstream(g, s, u, p, f, line)
    else if f.upstream && unit.kind.Dispatch? then
      (DispatchUpstream(s, u, p), p)
    else if unit.kind.Dispatch? then
      var p1 := if p.state != FLUSHING then p.(state := unit.unitProfile.state) else p;
      UnitSyncLine(g, s, u, if f.glob then p1.(period := unit.unitProfile.period) else p1, f)
    else
      UnitSyncLine(g, s, u, p, f)
  }

  /** The `sync_line` of the base class. */
  function UnitSyncLine(g: Graph, s: State, u: nat, p: Profile, f: Flags): (r: (State, Profile))
    requires Fits(g, s) && u in g.outs
    ensures Fits(g, r.0)
    decreases g.rank[u], 2
  {
    var unit := s.units[u];
    if f.glob then
      var (s1, p1) := ContinueSync(g, s, u, 0, Unflushed(Apply(unit.unitProfile, p)), f);
      (Put(s1, u, s1.units[u].(globalProfile := StoreGlobal(s1.units[u].globalProfile, p1))), p1)
    else if f.upstream && unit.upstream then
      // the unit's own profile is passed on by reference, the caller's is left alone
      var (s1, own) := ContinueSync(g, Put(s, u, unit.(upstream := false)), u, 0, unit.unitProfile, f);
      (Put(s1, u, s1.units[u].(unitProfile := own)), p)
    else if f.upstream then
      ContinueSync(g, Put(s, u, unit.(unitProfile := unit.unitProfile.(state := p.state))), u, 0, p, f)
    else if f.source then
      ContinueSync(g, s, u, 0, p, f.(source := false))
    else
      ContinueSync(g, s, u, 0, Apply(unit.unitProfile, p), f)
  }

  /** `continue_sync` from output `i` on: every connected output in turn, with the same profile. */
  function ContinueSync(g: Graph, s: State, u: nat, i: nat, p: Profile, f: Flags): (r: (State, Profile))
    requires Fits(g, s) && u in g.outs && i <= |g.outs[u]|
    ensures Fits(g, r.0)
    decreases g.rank[u], 1, |g.outs[u]| - i
  {
    if i == |g.outs[u]| then (s, p)
    else if !g.outs[u][i].connected then ContinueSync(g, s, u, i + 1, p, f)
    else
      var (s1, p1) := SyncLine(g, s, g.outs[u][i].to, p, f, g.outs[u][i].input);
      ContinueSync(g, s1, u, i + 1, p1, f)
  }

  /** Writing an input state; an input the combine unit does not have is undefined in the source and ignored here. */
  function SetInput(unit: Unit, line: nat, on: bool): Unit {
    if line < |unit.inputs| then unit.(inputs := unit.inputs[line := on]) else unit
  }

  predicate AllInactive(unit: Unit) {
    forall i :: 0 <= i < |unit.inputs| ==> !unit.inputs[i]
  }

  function SetState(unit: Unit, state: int): Unit {
    unit.(unitProfile := unit.unitProfile.(state := state))
  }

  function CombineUpstream(g: Graph, s: State, u: nat, p: Profile, f: Flags, line: nat): (r: (State, Profile))
    requires Fits(g, s) && u in g.outs
    ensures Fits(g, r.0)
    decreases g.rank[u], 2
  {
    var on := p.state == ACTIVE;
    var unit := SetInput(s.units[u], line, on);
    if on && unit.globalProfile.state == INACTIVE then
      ContinueSync(g, Put(s, u, SetState(unit, ACTIVE)), u, 0, p, f)
    else if !on && unit.globalProfile.state == ACTIVE && AllInactive(unit) then
      ContinueSync(g, Put(s, u, SetState(unit, INACTIVE)), u, 0, p, f)
    else
      (Put(s, u, unit), p)
  }

  function DispatchUpstream(s: State, u: nat, p: Profile): State
    requires u in s.units
  {
    if p.state == s.units[u].globalProfile.state then s
    else
      var s1 := RackTriggerSync(Put(s, u, SetState(s.units[u], p.state)), GLOB);
      if p.state == ACTIVE then s1.(cycles := s1.cycles + 1) else s1
  }

  // ---------------------------------------------------------------------------------------------
  // Cycles over the units and the backend's syncs
  // ---------------------------------------------------------------------------------------------

  /** The line profile a sync cycle starts from; latency, jumps and fill keep what they hold. */
  function Restart(p: Profile): Profile {
    p.(state := ACTIVE, period := 0, drift := 0.0)
  }

  /** `cycle_line` for a sync cycle: the unit profiles its line, then its outputs do the same. */
  function CycleLine(g: Graph, s: State, u: nat): (r: State)
    requires Fits(g, s) && u in g.outs
    ensures Fits(g, r)
    decreases g.rank[u], 1
  {
    CycleOutputs(g, ProfileLine(g, s, u), u, 0)
  }

  function ProfileLine(g: Graph, s: State, u: nat): (r: State)
    requires Fits(g, s) && u in g.outs
    ensures Fits(g, r)
  {
    var (s1, p1) := SyncLine(g, s, u, Restart(s.units[u].lineProfile), SOURCE, 0);
    Put(s1, u, s1.units[u].(lineProfile := p1))
  }

  function CycleOutputs(g: Graph, s: State, u: nat, i: nat): (r: State)
    requires Fits(g, s) && u in g.outs && i <= |g.outs[u]|
    ensures Fits(g, r)
    decreases g.rank[u], 0, |g.outs[u]| - i
  {
    if i == |g.outs[u]| then s
    else if !g.outs[u][i].connected then CycleOutputs(g, s, u, i + 1)
    else CycleOutputs(g, CycleLine(g, s, g.outs[u][i].to), u, i + 1)
  }

  predicate MainlinesFit(g: Graph, ms: seq<nat>) { forall m <- ms :: m in g.outs }

  /** `cycle(cycle_type::sync)`. */
  function Cycle(g: Graph, s: State, ms: seq<nat>): (r: State)
    requires Fits(g, s) && MainlinesFit(g, ms)
    ensures Fits(g, r)
    decreases |ms|
  {
    if ms == [] then s else Cycle(g, CycleLine(g, s, ms[0]), ms[1..])
  }

  /** One profile handed to all mainlines in turn. */
  function SyncShared(g: Graph, s: State, ms: seq<nat>, p: Profile, f: Flags): (r: (State, Profile))
    requires Fits(g, s) && MainlinesFit(g, ms)
    ensures Fits(g, r.0)
    decreases |ms|
  {
    if ms == [] then (s, p)
    else
      var (s1, p1) := SyncLine(g, s, ms[0], p, f, 0);
      SyncShared(g, s1, ms[1..], p1, f)
  }

  /** A fresh copy of the global profile handed to each mainline. */
  function SyncCopies(g: Graph, s: State, ms: seq<nat>, f: Flags): (r: State)
    requires Fits(g, s) && MainlinesFit(g, ms)
    ensures Fits(g, r)
    decreases |ms|
  {
    if ms == [] then s
    else SyncCopies(g, SyncLine(g, s, ms[0], s.global, f, 0).0, ms[1..], f)
  }

  /** The backend's `sync`; the timing of a duration sync and the building of the cache are elsewhere. */
  function Sync(g: Graph, s: State, ms: seq<nat>, f: Flags): (r: State)
    requires Fits(g, s) && MainlinesFit(g, ms)
    ensures Fits(g, r)
  {
    var s0 := if f.downstream then Cycle(g, s, ms) else s;
    if f.duration then Cycle(g, s0, ms)
    else if f.glob then
      var (s1, p1) := SyncShared(g, s0, ms, s0.global, f);
      Cycle(g, s1.(global := p1), ms)
    else if f.upstream then Cycle(g, SyncCopies(g, s0, ms, f), ms)
    else Cycle(g, s0, ms)
  }

  /** What the rack thread does about syncing after the AC cycle of one iteration. */
  function Iterate(g: Graph, s: State, ms: seq<nat>): (r: State)
    requires Fits(g, s) && MainlinesFit(g, ms)
    ensures Fits(g, r)
  {
    var s1 :=
      if !s.resync then s
      else if s.flags == NONE then Cycle(g, s, ms).(resync := false)
      else
        var s2 := if s.flags.upstream then
                    var t := Sync(g, s, ms, UPSTREAM);
                    t.(flags := t.flags.(upstream := !t.flags.upstream))
                  else s;
        Sync(g, s2, ms, s2.flags).(flags := NONE, resync := false);
    s1.(cycles := s1.cycles - 1)
  }
}
