/** What a global sync leaves behind: one period and one state, the dispatch unit's, everywhere. */
module GlobalSync {
  import opened UnitSync
  import opened LineProfiles

  /** The state the dispatch unit gives to the rack; flushing is read as active. */
  function RackState(s: State, d: nat): int
    requires d in s.units
  {
    var state := s.units[d].unitProfile.state;
    if state == FLUSHING then ACTIVE else state
  }

  /** `p` carries the dispatch unit's period and state. */
  predicate Agrees(s: State, d: nat, p: Profile)
    requires d in s.units
  {
    p.period == s.units[d].unitProfile.period && p.state == RackState(s, d)
  }

  /** Nothing but global profiles of units differs. */
  predicate OnlyGlobals(s: State, s': State) {
    && s' == s.(units := s'.units) && s'.units.Keys == s.units.Keys
    && forall u <- s.units :: s'.units[u] == s.units[u].(globalProfile := s'.units[u].globalProfile)
  }

  /** Global profiles that agreed before still agree. */
  predicate KeepsAgreement(s: State, s': State, d: nat)
    requires d in s.units && s'.units.Keys == s.units.Keys
  {
    forall u <- s.units :: Agrees(s, d, s.units[u].globalProfile) ==> Agrees(s, d, s'.units[u].globalProfile)
  }

  predicate Globally(f: Flags) { f.glob && !f.upstream }

  /** A global sync from `s` to `s'` has brought the units `vs` into agreement. */
  predicate Synced(s: State, s': State, d: nat, vs: seq<nat>)
    requires d in s.units
  {
    && OnlyGlobals(s, s') && KeepsAgreement(s, s', d)
    && forall v <- vs :: v in s.units && Agrees(s, d, s'.units[v].globalProfile)
  }

  lemma SyncedThen(s: State, s1: State, s2: State, d: nat, vs: seq<nat>, ws: seq<nat>)
    requires d in s.units && Synced(s, s1, d, vs) && Synced(s1, s2, d, ws)
    ensures Synced(s, s2, d, vs + ws)
  {
    assert s1.units[d].unitProfile == s.units[d].unitProfile;
    forall u <- s.units ensures Agrees(s1, d, s1.units[u].globalProfile) == Agrees(s, d, s1.units[u].globalProfile) {}
  }

  lemma StoresGlobal(s: State, s1: State, d: nat, u: nat, p: Profile, vs: seq<nat>)
    requires d in s.units && u in s.units && Synced(s, s1, d, vs) && Agrees(s, d, p)
    ensures Synced(s, Put(s1, u, s1.units[u].(globalProfile := StoreGlobal(s1.units[u].globalProfile, p))), d, [u] + vs)
  {
  }

  /** A global sync entering a unit: everything reached from it agrees with the dispatch unit, and so
      does the profile it comes back with. The dispatch unit itself expects a profile that is not flushing. */
  lemma {:induction false} GlobalWalk(g: Graph, s: State, u: nat, p: Profile, f: Flags, line: nat, d: nat)
    requires Fits(g, s) && u in g.outs && EndsIn(g, s, u, d) && Globally(f)
    requires u == d ==> p.state != FLUSHING
    ensures var (s', p') := SyncLine(g, s, u, p, f, line); Synced(s, s', d, Visits(g, u)) && Agrees(s, d, p')
    decreases g.rank[u], 1
  {
    assert u == Visits(g, u)[0];
    var q := if u == d then p.(state := s.units[d].unitProfile.state, period := s.units[d].unitProfile.period) else p;
    var q1 := Unflushed(Apply(s.units[u].unitProfile, q));
    var (s1, p1) := ContinueSync(g, s, u, 0, q1, f);
    if u == d {
      NothingBehind(g, u, 0);
      NoOutputsNoWalk(g, s, u, 0, q1, f);
    } else {
      assert HasOutput(g, u);
      GlobalWalkBehind(g, s, u, 0, q1, f, d);
    }
    StoresGlobal(s, s1, d, u, p1, Behind(g, u, 0));
    assert SyncLine(g, s, u, p, f, line) ==
      (Put(s1, u, s1.units[u].(globalProfile := StoreGlobal(s1.units[u].globalProfile, p1))), p1);
  }

  lemma {:induction false} NoOutputsNoWalk(g: Graph, s: State, u: nat, i: nat, p: Profile, f: Flags)
    requires Fits(g, s) && u in g.outs && i <= |g.outs[u]| && !HasOutput(g, u)
    ensures ContinueSync(g, s, u, i, p, f) == (s, p)
    decreases |g.outs[u]| - i
  {
    if i == |g.outs[u]| {
    } else {
      NoOutputsNoWalk(g, s, u, i + 1, p, f);
    }
  }

  lemma {:induction false} GlobalWalkBehind(g: Graph, s: State, u: nat, i: nat, p: Profile, f: Flags, d: nat)
    requires Fits(g, s) && u in g.outs && i <= |g.outs[u]| && EndsIn(g, s, u, d) && Globally(f)
    requires p.state != FLUSHING
    requires Agrees(s, d, p) || exists j: nat :: i <= j < |g.outs[u]| && g.outs[u][j].connected
    ensures var (s', p') := ContinueSync(g, s, u, i, p, f); Synced(s, s', d, Behind(g, u, i)) && Agrees(s, d, p')
    decreases g.rank[u], 0, |g.outs[u]| - i
  {
    if i == |g.outs[u]| {
    } else {
      if g.outs[u][i].connected {
        var to := g.outs[u][i].to;
        OutputEndsIn(g, s, u, i, d);
        GlobalWalk(g, s, to, p, f, g.outs[u][i].input, d);
        var (s1, p1) := SyncLine(g, s, to, p, f, g.outs[u][i].input);
        SameEnds(g, s, s1, u, d);
        GlobalWalkBehind(g, s1, u, i + 1, p1, f, d);
        var s2 := ContinueSync(g, s1, u, i + 1, p1, f).0;
        SyncedThen(s, s1, s2, d, Visits(g, to), Behind(g, u, i + 1));
        assert Behind(g, u, i) == Visits(g, to) + Behind(g, u, i + 1);
      } else {
        GlobalWalkBehind(g, s, u, i + 1, p, f, d);
      }
    }
  }

  lemma SameEnds(g: Graph, s: State, s': State, u: nat, d: nat)
    requires Fits(g, s) && Fits(g, s') && OnlyGlobals(s, s') && u in g.outs && EndsIn(g, s, u, d)
    ensures EndsIn(g, s', u, d)
  {
    forall v <- Visits(g, u) ensures s'.units[v].kind == s.units[v].kind {}
  }

  /** All units visited from the mainlines. */
  function AllVisits(g: Graph, ms: seq<nat>): seq<nat>
    requires Acyclic(g) && MainlinesFit(g, ms)
  {
    if ms == [] then [] else Visits(g, ms[0]) + AllVisits(g, ms[1..])
  }

  lemma {:induction false} VisitedFromMainline(g: Graph, ms: seq<nat>, m: nat, v: nat)
    requires Acyclic(g) && MainlinesFit(g, ms) && m in ms && v in Visits(g, m)
    ensures v in AllVisits(g, ms)
    decreases |ms|
  {
    if m == ms[0] {
    } else {
      VisitedFromMainline(g, ms[1..], m, v);
    }
  }

  /** One shared profile passed to all mainlines. */
  lemma {:induction false} SharedWalk(g: Graph, s: State, ms: seq<nat>, p: Profile, f: Flags, d: nat)
    requires Fits(g, s) && MainlinesFit(g, ms) && AllEndIn(g, s, ms, d) && Globally(f) && d in g.outs && d !in ms
    requires ms == [] ==> Agrees(s, d, p)
    ensures var (s', p') := SyncShared(g, s, ms, p, f); Synced(s, s', d, AllVisits(g, ms)) && Agrees(s, d, p')
    decreases |ms|
  {
    if ms == [] {
    } else {
      GlobalWalk(g, s, ms[0], p, f, 0, d);
      var (s1, p1) := SyncLine(g, s, ms[0], p, f, 0);
      forall m <- ms[1..] ensures EndsIn(g, s1, m, d) {
        SameEnds(g, s, s1, m, d);
      }
      SharedWalk(g, s1, ms[1..], p1, f, d);
      SyncedThen(s, s1, SyncShared(g, s1, ms[1..], p1, f).0, d, Visits(g, ms[0]), AllVisits(g, ms[1..]));
    }
  }

  /** Nothing but line and global profiles of units and the backend's global profile differs. */
  predicate OnlyProfiles(s: State, s': State) {
    && s' == s.(units := s'.units, global := s'.global) && s'.units.Keys == s.units.Keys
    && forall u <- s.units :: s'.units[u] ==
         s.units[u].(lineProfile := s'.units[u].lineProfile, globalProfile := s'.units[u].globalProfile)
  }

  /** The backend and every unit reached from a mainline hold the dispatch unit's period and state. */
  predicate AllAgree(g: Graph, s: State, ms: seq<nat>, d: nat)
    requires Fits(g, s) && MainlinesFit(g, ms) && d in g.outs
  {
    && Agrees(s, d, s.global)
    && forall m <- ms, v <- Visits(g, m) :: Agrees(s, d, s.units[v].globalProfile)
  }

  /** A sync cycle leaves the agreement alone. */
  lemma CycleKeepsAgreement(g: Graph, s: State, ms: seq<nat>, d: nat)
    requires Fits(g, s) && MainlinesFit(g, ms) && AllEndIn(g, s, ms, d) && d in g.outs
    ensures var s' := Cycle(g, s, ms); OnlyLines(s, s') && AllEndIn(g, s', ms, d)
    ensures AllAgree(g, s, ms, d) ==> AllAgree(g, Cycle(g, s, ms), ms, d)
  {
    CycleSyncs(g, s, ms, d);
    forall m <- ms ensures EndsIn(g, Cycle(g, s, ms), m, d) {
      StillEndsIn(g, s, Cycle(g, s, ms), m, d);
    }
  }

  /** The state right after the shared profile has come back from the last mainline. */
  function Shared(g: Graph, s: State, ms: seq<nat>, f: Flags): (r: State)
    requires Fits(g, s) && MainlinesFit(g, ms)
    ensures Fits(g, r)
  {
    var (s1, p1) := SyncShared(g, s, ms, s.global, f);
    s1.(global := p1)
  }

  lemma SharedAgrees(g: Graph, s: State, ms: seq<nat>, f: Flags, d: nat)
    requires Fits(g, s) && MainlinesFit(g, ms) && AllEndIn(g, s, ms, d) && Globally(f) && d in g.outs && d !in ms &&
      ms != []
    ensures var s' := Shared(g, s, ms, f); OnlyProfiles(s, s') && AllEndIn(g, s', ms, d) && AllAgree(g, s', ms, d)
  {
    SharedWalk(g, s, ms, s.global, f, d);
    var (s1, p1) := SyncShared(g, s, ms, s.global, f);
    var s' := s1.(global := p1);
    forall m <- ms ensures EndsIn(g, s', m, d) {
      SameEnds(g, s, s1, m, d);
      assert forall v <- Visits(g, m) :: s'.units[v].kind == s1.units[v].kind;
    }
    forall m <- ms, v <- Visits(g, m) ensures Agrees(s', d, s'.units[v].globalProfile) {
      VisitedFromMainline(g, ms, m, v);
    }
  }

  /** The main result about a global sync: the backend and every unit reached from a mainline hold the
      dispatch unit's own period and state, whatever the branching and whatever they held before. */
  lemma GlobalSyncAgrees(g: Graph, s: State, ms: seq<nat>, f: Flags, d: nat)
    requires Fits(g, s) && MainlinesFit(g, ms) && AllEndIn(g, s, ms, d) && d in g.outs && d !in ms && ms != []
    requires Globally(f) && !f.duration
    ensures var s' := Sync(g, s, ms, f); OnlyProfiles(s, s') && AllAgree(g, s', ms, d)
  {
    var s0 := if f.downstream then Cycle(g, s, ms) else s;
    CycleKeepsAgreement(g, s, ms, d);
    SharedAgrees(g, s0, ms, f, d);
    CycleKeepsAgreement(g, Shared(g, s0, ms, f), ms, d);
  }

  // ---------------------------------------------------------------------------------------------
  // On any acyclic graph
  // ---------------------------------------------------------------------------------------------

  predicate NoGlobalFlushing(s: State) {
    s.global.state != FLUSHING && forall u <- s.units :: s.units[u].globalProfile.state != FLUSHING
  }

  /** What every walk keeps: no global state becomes flushing, and the only request a walk makes is for
      a global sync. */
  predicate Clean(s: State, s': State) {
    NoGlobalFlushing(s') && (s'.flags == s.flags || s'.flags == s.flags.(glob := true))
  }

  /** The rack takes the upstream bit out before it syncs globally. */
  predicate Proper(f: Flags) { f.upstream ==> !f.glob }

  lemma {:induction false} WalkIsClean(g: Graph, s: State, u: nat, p: Profile, f: Flags, line: nat)
    requires Fits(g, s) && u in g.outs && NoGlobalFlushing(s) && Proper(f)
    ensures Clean(s, SyncLine(g, s, u, p, f, line).0)
    ensures f.glob ==> SyncLine(g, s, u, p, f, line).1.state != FLUSHING
    decreases g.rank[u], 3
  {
    var unit := s.units[u];
    if f.upstream && unit.kind.Mainline? {
      BehindIsClean(g, Put(s, u, unit.(upstream := false)), u, 0, p.(state := unit.unitProfile.state), f);
    } else if f.upstream && unit.kind.Combine? {
      CombineIsClean(g, s, u, p, f, line);
    } else if f.upstream && unit.kind.Dispatch? {
    } else if unit.kind.Dispatch? {
      var p1 := if p.state != FLUSHING then p.(state := unit.unitProfile.state) else p;
      UnitIsClean(g, s, u, if f.glob then p1.(period := unit.unitProfile.period) else p1, f);
    } else {
      UnitIsClean(g, s, u, p, f);
    }
  }

  lemma {:induction false} CombineIsClean(g: Graph, s: State, u: nat, p: Profile, f: Flags, line: nat)
    requires Fits(g, s) && u in g.outs && NoGlobalFlushing(s) && f.upstream && !f.glob
    ensures Clean(s, CombineUpstream(g, s, u, p, f, line).0)
    decreases g.rank[u], 2
  {
    var unit := SetInput(s.units[u], line, p.state == ACTIVE);
    BehindIsClean(g, Put(s, u, SetState(unit, if p.state == ACTIVE then ACTIVE else INACTIVE)), u, 0, p, f);
  }

  lemma {:induction false} UnitIsClean(g: Graph, s: State, u: nat, p: Profile, f: Flags)
    requires Fits(g, s) && u in g.outs && NoGlobalFlushing(s) && Proper(f)
    ensures Clean(s, UnitSyncLine(g, s, u, p, f).0)
    ensures f.glob ==> UnitSyncLine(g, s, u, p, f).1.state != FLUSHING
    decreases g.rank[u], 2
  {
    var unit := s.units[u];
    if f.glob {
      BehindIsClean(g, s, u, 0, Unflushed(Apply(unit.unitProfile, p)), f);
    } else if f.upstream && unit.upstream {
      BehindIsClean(g, Put(s, u, unit.(upstream := false)), u, 0, unit.unitProfile, f);
    } else if f.upstream {
      BehindIsClean(g, Put(s, u, unit.(unitProfile := unit.unitProfile.(state := p.state))), u, 0, p, f);
    } else if f.source {
      BehindIsClean(g, s, u, 0, p, f.(source := false));
    } else {
      BehindIsClean(g, s, u, 0, Apply(unit.unitProfile, p), f);
    }
  }

  lemma {:induction false} BehindIsClean(g: Graph, s: State, u: nat, i: nat, p: Profile, f: Flags)
    requires Fits(g, s) && u in g.outs && i <= |g.outs[u]| && NoGlobalFlushing(s) && Proper(f)
    ensures Clean(s, ContinueSync(g, s, u, i, p, f).0)
    ensures f.glob && p.state != FLUSHING ==> ContinueSync(g, s, u, i, p, f).1.state != FLUSHING
    decreases g.rank[u], 1, |g.outs[u]| - i
  {
    if i == |g.outs[u]| {
    } else {
      if g.outs[u][i].connected {
        var (s1, p1) := SyncLine(g, s, g.outs[u][i].to, p, f, g.outs[u][i].input);
        WalkIsClean(g, s, g.outs[u][i].to, p, f, g.outs[u][i].input);
        BehindIsClean(g, s1, u, i + 1, p1, f);
      } else {
        BehindIsClean(g, s, u, i + 1, p, f);
      }
    }
  }

  lemma {:induction false} CycleLineIsClean(g: Graph, s: State, u: nat)
    requires Fits(g, s) && u in g.outs && NoGlobalFlushing(s)
    ensures Clean(s, CycleLine(g, s, u))
    decreases g.rank[u], 1
  {
    WalkIsClean(g, s, u, Restart(s.units[u].lineProfile), SOURCE, 0);
    CycleOutputsIsClean(g, ProfileLine(g, s, u), u, 0);
  }

  lemma {:induction false} CycleOutputsIsClean(g: Graph, s: State, u: nat, i: nat)
    requires Fits(g, s) && u in g.outs && i <= |g.outs[u]| && NoGlobalFlushing(s)
    ensures Clean(s, CycleOutputs(g, s, u, i))
    decreases g.rank[u], 0, |g.outs[u]| - i
  {
    if i == |g.outs[u]| {
    } else {
      if g.outs[u][i].connected {
        CycleLineIsClean(g, s, g.outs[u][i].to);
        CycleOutputsIsClean(g, CycleLine(g, s, g.outs[u][i].to), u, i + 1);
      } else {
        CycleOutputsIsClean(g, s, u, i + 1);
      }
    }
  }

  lemma {:induction false} CycleIsClean(g: Graph, s: State, ms: seq<nat>)
    requires Fits(g, s) && MainlinesFit(g, ms) && NoGlobalFlushing(s)
    ensures Clean(s, Cycle(g, s, ms))
    decreases |ms|
  {
    if ms == [] {
    } else {
      CycleLineIsClean(g, s, ms[0]);
      CycleIsClean(g, CycleLine(g, s, ms[0]), ms[1..]);
    }
  }

  lemma {:induction false} SharedIsClean(g: Graph, s: State, ms: seq<nat>, p: Profile, f: Flags)
    requires Fits(g, s) && MainlinesFit(g, ms) && NoGlobalFlushing(s) && Proper(f)
    ensures Clean(s, SyncShared(g, s, ms, p, f).0)
    ensures f.glob && p.state != FLUSHING ==> SyncShared(g, s, ms, p, f).1.state != FLUSHING
    decreases |ms|
  {
    if ms == [] {
    } else {
      WalkIsClean(g, s, ms[0], p, f, 0);
      var (s1, p1) := SyncLine(g, s, ms[0], p, f, 0);
      SharedIsClean(g, s1, ms[1..], p1, f);
    }
  }

  lemma {:induction false} CopiesAreClean(g: Graph, s: State, ms: seq<nat>, f: Flags)
    requires Fits(g, s) && MainlinesFit(g, ms) && NoGlobalFlushing(s) && Proper(f)
    ensures Clean(s, SyncCopies(g, s, ms, f))
    decreases |ms|
  {
    if ms == [] {
    } else {
      WalkIsClean(g, s, ms[0], s.global, f, 0);
      CopiesAreClean(g, SyncLine(g, s, ms[0], s.global, f, 0).0, ms[1..], f);
    }
  }

  lemma SyncIsClean(g: Graph, s: State, ms: seq<nat>, f: Flags)
    requires Fits(g, s) && MainlinesFit(g, ms) && NoGlobalFlushing(s) && Proper(f)
    ensures Clean(s, Sync(g, s, ms, f))
  {
    CycleIsClean(g, s, ms);
    var s0 := if f.downstream then Cycle(g, s, ms) else s;
    CycleIsClean(g, s0, ms);
    SharedIsClean(g, s0, ms, s0.global, f);
    if f.glob {
      var (s1, p1) := SyncShared(g, s0, ms, s0.global, f);
      CycleIsClean(g, s1.(global := p1), ms);
    }
    CopiesAreClean(g, s0, ms, f);
    CycleIsClean(g, SyncCopies(g, s0, ms, f), ms);
  }

  /** Over every iteration of the rack thread, on any acyclic graph and with any requests waiting, no
      unit's global state is ever flushing, nor is the backend's. */
  lemma IterationNeverFlushing(g: Graph, s: State, ms: seq<nat>)
    requires Fits(g, s) && MainlinesFit(g, ms) && NoGlobalFlushing(s)
    ensures NoGlobalFlushing(Iterate(g, s, ms))
  {
    CycleIsClean(g, s, ms);
    if s.flags.upstream {
      SyncIsClean(g, s, ms, UPSTREAM);
      var t := Sync(g, s, ms, UPSTREAM);
      var s2 := t.(flags := t.flags.(upstream := !t.flags.upstream));
      SyncIsClean(g, s2, ms, s2.flags);
    } else {
      SyncIsClean(g, s, ms, s.flags);
    }
  }
}
