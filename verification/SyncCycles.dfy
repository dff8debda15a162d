/** What a walk leaves alone on any acyclic graph, and what sync cycles add up to: every sync, with
    whatever flags, ends with the line profiles of all units synced. */
module SyncCycles {
  import opened GlobalSync
  import opened LineProfiles
  import opened UnitSync

  // ---------------------------------------------------------------------------------------------
  // What every walk keeps
  // ---------------------------------------------------------------------------------------------

  /** Kinds and line profiles are the same, and a unit's own profile but for its state; of the requests at
      most the one for a global sync is new. */
  predicate Keeps(s: State, s': State) {
    && s'.units.Keys == s.units.Keys && s'.global == s.global
    && s'.flags == s.flags.(glob := s'.flags.glob) && (s.flags.glob ==> s'.flags.glob) && (s.resync ==> s'.resync)
    && forall u <- s.units ::
         && s'.units[u].kind == s.units[u].kind && s'.units[u].lineProfile == s.units[u].lineProfile
         && s'.units[u].unitProfile == s.units[u].unitProfile.(state := s'.units[u].unitProfile.state)
         && |s'.units[u].inputs| == |s.units[u].inputs|
  }

  /** Only the units `vs` differ. */
  predicate Only(s: State, s': State, vs: seq<nat>)
    requires s'.units.Keys == s.units.Keys
  {
    forall u <- s.units :: u in vs || s'.units[u] == s.units[u]
  }

  /** An upstream sync hands down nothing but a state. */
  predicate StateOnly(f: Flags, p: Profile, p': Profile) {
    f.upstream && !f.glob ==> p' == p.(state := p'.state)
  }

  lemma KeepsThen(s: State, s1: State, s2: State, vs: seq<nat>, ws: seq<nat>)
    requires Keeps(s, s1) && Keeps(s1, s2) && Only(s, s1, vs) && Only(s1, s2, ws)
    ensures Keeps(s, s2) && Only(s, s2, vs + ws)
  {
  }

  /** A unit that is written before what is behind it is walked, and after. */
  lemma KeepsAround(g: Graph, s: State, s1: State, s2: State, s3: State, u: nat)
    requires Fits(g, s) && u in g.outs && Keeps(s, s1) && Keeps(s1, s2) && Keeps(s2, s3)
    requires Only(s, s1, [u]) && Only(s1, s2, Behind(g, u, 0)) && Only(s2, s3, [u])
    ensures Keeps(s, s3) && Only(s, s3, Visits(g, u))
  {
  }

  /** What may be written to a unit. */
  predicate Rewrites(unit: Unit, unit': Unit) {
    && unit'.kind == unit.kind && unit'.lineProfile == unit.lineProfile && |unit'.inputs| == |unit.inputs|
    && unit'.unitProfile == unit.unitProfile.(state := unit'.unitProfile.state)
  }

  lemma PutKeeps(g: Graph, s: State, u: nat, unit': Unit)
    requires Fits(g, s) && u in g.outs && Rewrites(s.units[u], unit')
    ensures Fits(g, Put(s, u, unit')) && Keeps(s, Put(s, u, unit')) && Only(s, Put(s, u, unit'), [u])
  {
  }

  /** What a walk that enters unit `u` with `p` ends with. */
  predicate Walked(g: Graph, s: State, u: nat, f: Flags, p: Profile, r: (State, Profile))
    requires Fits(g, s) && u in g.outs
  {
    Keeps(s, r.0) && Only(s, r.0, Visits(g, u)) && StateOnly(f, p, r.1)
  }

  /** Writing the unit and then walking on with `p1`. */
  lemma {:induction false} WriteThenWalk(g: Graph, s: State, u: nat, unit': Unit, f: Flags, p: Profile, p1: Profile)
    requires Fits(g, s) && u in g.outs && Rewrites(s.units[u], unit') && StateOnly(f, p, p1)
    ensures Walked(g, s, u, f, p, ContinueSync(g, Put(s, u, unit'), u, 0, p1, f))
    decreases g.rank[u], 2
  {
    var s1 := Put(s, u, unit');
    PutKeeps(g, s, u, unit');
    BehindKeeps(g, s1, u, 0, p1, f);
    var (s2, p2) := ContinueSync(g, s1, u, 0, p1, f);
    KeepsAround(g, s, s1, s2, s2, u);
  }

  /** Walking on with `p1` and then writing the unit. */
  lemma {:induction false} WalkThenWrite(g: Graph, s: State, s1: State, u: nat, unit': Unit, f: Flags, p1: Profile)
    requires Fits(g, s) && u in g.outs && Fits(g, s1) && Keeps(s, s1) && Only(s, s1, [u])
    requires var s2 := ContinueSync(g, s1, u, 0, p1, f).0; Rewrites(s2.units[u], unit')
    ensures var s2 := ContinueSync(g, s1, u, 0, p1, f).0;
      Keeps(s, Put(s2, u, unit')) && Only(s, Put(s2, u, unit'), Visits(g, u))
    decreases g.rank[u], 2
  {
    BehindKeeps(g, s1, u, 0, p1, f);
    var (s2, p2) := ContinueSync(g, s1, u, 0, p1, f);
    PutKeeps(g, s2, u, unit');
    KeepsAround(g, s, s1, s2, Put(s2, u, unit'), u);
  }

  lemma {:induction false} WalkKeeps(g: Graph, s: State, u: nat, p: Profile, f: Flags, line: nat)
    requires Fits(g, s) && u in g.outs
    ensures Walked(g, s, u, f, p, SyncLine(g, s, u, p, f, line))
    decreases g.rank[u], 5
  {
    var unit := s.units[u];
    if f.upstream && unit.kind.Mainline? {
      WriteThenWalk(g, s, u, unit.(upstream := false), f, p, p.(state := unit.unitProfile.state));
    } else if f.upstream && unit.kind.Combine? {
      CombineKeeps(g, s, u, p, f, line);
    } else if f.upstream && unit.kind.Dispatch? {
      DispatchKeeps(g, s, u, p, f);
    } else if unit.kind.Dispatch? {
      var p1 := if p.state != FLUSHING then p.(state := unit.unitProfile.state) else p;
      UnitKeeps(g, s, u, if f.glob then p1.(period := unit.unitProfile.period) else p1, f);
    } else {
      UnitKeeps(g, s, u, p, f);
    }
  }

  lemma DispatchKeeps(g: Graph, s: State, u: nat, p: Profile, f: Flags)
    requires Fits(g, s) && u in g.outs
    ensures Walked(g, s, u, f, p, (DispatchUpstream(s, u, p), p))
  {
    assert u == Visits(g, u)[0];
    var s1 := Put(s, u, SetState(s.units[u], p.state));
    PutKeeps(g, s, u, SetState(s.units[u], p.state));
    Requested(s, s1, DispatchUpstream(s, u, p), [u]);
  }

  /** Asking for a global sync and for cycles touches no unit. */
  lemma Requested(s: State, s1: State, s2: State, vs: seq<nat>)
    requires Keeps(s, s1) && Only(s, s1, vs)
    requires s2 == s || s2 == s1.(flags := s1.flags.(glob := true), resync := true, cycles := s2.cycles)
    ensures Keeps(s, s2) && Only(s, s2, vs)
  {
  }

  lemma {:induction false} CombineKeeps(g: Graph, s: State, u: nat, p: Profile, f: Flags, line: nat)
    requires Fits(g, s) && u in g.outs
    ensures Walked(g, s, u, f, p, CombineUpstream(g, s, u, p, f, line))
    decreases g.rank[u], 4
  {
    assert u == Visits(g, u)[0];
    var unit := SetInput(s.units[u], line, p.state == ACTIVE);
    PutKeeps(g, s, u, unit);
    WriteThenWalk(g, s, u, SetState(unit, if p.state == ACTIVE then ACTIVE else INACTIVE), f, p, p);
  }

  lemma {:induction false} GlobalKeeps(g: Graph, s: State, u: nat, p: Profile, f: Flags)
    requires Fits(g, s) && u in g.outs && f.glob
    ensures Walked(g, s, u, f, p, UnitSyncLine(g, s, u, p, f))
    decreases g.rank[u], 3
  {
    var q := Unflushed(Apply(s.units[u].unitProfile, p));
    var (s1, p1) := ContinueSync(g, s, u, 0, q, f);
    WalkThenWrite(g, s, s, u, s1.units[u].(globalProfile := StoreGlobal(s1.units[u].globalProfile, p1)), f, q);
  }

  lemma {:induction false} RequestKeeps(g: Graph, s: State, u: nat, p: Profile, f: Flags)
    requires Fits(g, s) && u in g.outs && !f.glob && f.upstream && s.units[u].upstream
    ensures Walked(g, s, u, f, p, UnitSyncLine(g, s, u, p, f))
    decreases g.rank[u], 3
  {
    var unit := s.units[u];
    var s1 := Put(s, u, unit.(upstream := false));
    PutKeeps(g, s, u, unit.(upstream := false));
    BehindKeeps(g, s1, u, 0, unit.unitProfile, f);
    var (s2, own) := ContinueSync(g, s1, u, 0, unit.unitProfile, f);
    WalkThenWrite(g, s, s1, u, s2.units[u].(unitProfile := own), f, unit.unitProfile);
  }

  lemma {:induction false} UnitKeeps(g: Graph, s: State, u: nat, p: Profile, f: Flags)
    requires Fits(g, s) && u in g.outs
    ensures Walked(g, s, u, f, p, UnitSyncLine(g, s, u, p, f))
    decreases g.rank[u], 4
  {
    var unit := s.units[u];
    if f.glob {
      GlobalKeeps(g, s, u, p, f);
    } else if f.upstream && unit.upstream {
      RequestKeeps(g, s, u, p, f);
    } else if f.upstream {
      WriteThenWalk(g, s, u, unit.(unitProfile := unit.unitProfile.(state := p.state)), f, p, p);
    } else if f.source {
      BehindKeeps(g, s, u, 0, p, f.(source := false));
    } else {
      BehindKeeps(g, s, u, 0, Apply(unit.unitProfile, p), f);
    }
  }

  lemma {:induction false} BehindKeeps(g: Graph, s: State, u: nat, i: nat, p: Profile, f: Flags)
    requires Fits(g, s) && u in g.outs && i <= |g.outs[u]|
    ensures var (s', p') := ContinueSync(g, s, u, i, p, f);
      Keeps(s, s') && Only(s, s', Behind(g, u, i)) && StateOnly(f, p, p')
    decreases g.rank[u], 1, |g.outs[u]| - i
  {
    if i == |g.outs[u]| {
    } else {
      if g.outs[u][i].connected {
        var to := g.outs[u][i].to;
        var (s1, p1) := SyncLine(g, s, to, p, f, g.outs[u][i].input);
        WalkKeeps(g, s, to, p, f, g.outs[u][i].input);
        BehindKeeps(g, s1, u, i + 1, p1, f);
        KeepsThen(s, s1, ContinueSync(g, s1, u, i + 1, p1, f).0, Visits(g, to), Behind(g, u, i + 1));
      } else {
        BehindKeeps(g, s, u, i + 1, p, f);
      }
    }
  }

  lemma {:induction false} SharedKeeps(g: Graph, s: State, ms: seq<nat>, p: Profile, f: Flags)
    requires Fits(g, s) && MainlinesFit(g, ms)
    ensures Keeps(s, SyncShared(g, s, ms, p, f).0)
    decreases |ms|
  {
    if ms == [] {
    } else {
      WalkKeeps(g, s, ms[0], p, f, 0);
      var (s1, p1) := SyncLine(g, s, ms[0], p, f, 0);
      SharedKeeps(g, s1, ms[1..], p1, f);
    }
  }

  lemma {:induction false} CopiesKeep(g: Graph, s: State, ms: seq<nat>, f: Flags)
    requires Fits(g, s) && MainlinesFit(g, ms)
    ensures Keeps(s, SyncCopies(g, s, ms, f))
    decreases |ms|
  {
    if ms == [] {
    } else {
      WalkKeeps(g, s, ms[0], s.global, f, 0);
      CopiesKeep(g, SyncLine(g, s, ms[0], s.global, f, 0).0, ms[1..], f);
    }
  }

  // ---------------------------------------------------------------------------------------------
  // A sync cycle profiles the line of every unit it visits, in order
  // ---------------------------------------------------------------------------------------------

  function ProfileAll(g: Graph, s: State, vs: seq<nat>): (r: State)
    requires Fits(g, s) && MainlinesFit(g, vs)
    ensures Fits(g, r)
    decreases |vs|
  {
    if vs == [] then s else ProfileAll(g, ProfileLine(g, s, vs[0]), vs[1..])
  }

  lemma {:induction false} ProfileAllConcat(g: Graph, s: State, vs: seq<nat>, ws: seq<nat>)
    requires Fits(g, s) && MainlinesFit(g, vs) && MainlinesFit(g, ws)
    ensures ProfileAll(g, s, vs + ws) == ProfileAll(g, ProfileAll(g, s, vs), ws)
    decreases |vs|
  {
    if vs == [] {
      assert vs + ws == ws;
    } else {
      assert (vs + ws)[1..] == vs[1..] + ws;
      ProfileAllConcat(g, ProfileLine(g, s, vs[0]), vs[1..], ws);
    }
  }

  lemma {:induction false} CycleLineProfilesAll(g: Graph, s: State, u: nat)
    requires Fits(g, s) && u in g.outs
    ensures CycleLine(g, s, u) == ProfileAll(g, s, Visits(g, u))
    decreases g.rank[u], 1
  {
    CycleOutputsProfileAll(g, ProfileLine(g, s, u), u, 0);
    assert Visits(g, u)[1..] == Behind(g, u, 0);
  }

  lemma {:induction false} CycleOutputsProfileAll(g: Graph, s: State, u: nat, i: nat)
    requires Fits(g, s) && u in g.outs && i <= |g.outs[u]|
    ensures CycleOutputs(g, s, u, i) == ProfileAll(g, s, Behind(g, u, i))
    decreases g.rank[u], 0, |g.outs[u]| - i
  {
    if i == |g.outs[u]| {
    } else {
      if g.outs[u][i].connected {
        var to := g.outs[u][i].to;
        CycleLineProfilesAll(g, s, to);
        CycleOutputsProfileAll(g, CycleLine(g, s, to), u, i + 1);
        ProfileAllConcat(g, s, Visits(g, to), Behind(g, u, i + 1));
      } else {
        CycleOutputsProfileAll(g, s, u, i + 1);
      }
    }
  }

  lemma {:induction false} AllVisitsFit(g: Graph, ms: seq<nat>)
    requires Acyclic(g) && MainlinesFit(g, ms)
    ensures MainlinesFit(g, AllVisits(g, ms))
    decreases |ms|
  {
    if ms == [] {
    } else {
      AllVisitsFit(g, ms[1..]);
    }
  }

  lemma {:induction false} CycleProfilesAll(g: Graph, s: State, ms: seq<nat>)
    requires Fits(g, s) && MainlinesFit(g, ms)
    ensures MainlinesFit(g, AllVisits(g, ms)) && Cycle(g, s, ms) == ProfileAll(g, s, AllVisits(g, ms))
    decreases |ms|
  {
    AllVisitsFit(g, ms);
    if ms == [] {
    } else {
      CycleLineProfilesAll(g, s, ms[0]);
      CycleProfilesAll(g, CycleLine(g, s, ms[0]), ms[1..]);
      ProfileAllConcat(g, s, Visits(g, ms[0]), AllVisits(g, ms[1..]));
    }
  }

  lemma {:induction false} ProfileAllLines(g: Graph, s: State, vs: seq<nat>)
    requires Fits(g, s) && MainlinesFit(g, vs)
    ensures OnlyLines(s, ProfileAll(g, s, vs))
    decreases |vs|
  {
    if vs == [] {
    } else {
      ProfileLineFolds(g, s, vs[0]);
      ProfileAllLines(g, ProfileLine(g, s, vs[0]), vs[1..]);
    }
  }

  // ---------------------------------------------------------------------------------------------
  // Every sync ends with a sync cycle
  // ---------------------------------------------------------------------------------------------

  /** Nothing that a line profile depends on differs but the states of units. */
  predicate SameLines(s: State, s': State) {
    && s'.units.Keys == s.units.Keys
    && forall u <- s.units ::
         && s'.units[u].kind == s.units[u].kind && s'.units[u].lineProfile == s.units[u].lineProfile
         && s'.units[u].unitProfile == s.units[u].unitProfile.(state := s'.units[u].unitProfile.state)
  }

  /** The cycle that a downstream request puts in front. */
  function Opened(g: Graph, s: State, ms: seq<nat>, f: Flags): (r: State)
    requires Fits(g, s) && MainlinesFit(g, ms)
    ensures Fits(g, r)
  {
    if f.downstream then Cycle(g, s, ms) else s
  }

  /** A sync is a cycle of its own or none, walks that touch no line profile, and a closing cycle; a duration
      sync makes no walks. */
  lemma SyncCloses(g: Graph, s: State, ms: seq<nat>, f: Flags) returns (s2: State)
    requires Fits(g, s) && MainlinesFit(g, ms)
    ensures Fits(g, s2) && SameLines(Opened(g, s, ms, f), s2) && Sync(g, s, ms, f) == Cycle(g, s2, ms)
    ensures f.duration ==> s2 == Opened(g, s, ms, f)
    ensures s2.flags == s.flags.(glob := s2.flags.glob) && (s.flags.glob ==> s2.flags.glob)
  {
    var s0 := Opened(g, s, ms, f);
    if f.downstream { CycleProfilesAll(g, s, ms); ProfileAllLines(g, s, AllVisits(g, ms)); }
    if f.duration {
      s2 := s0;
    } else if f.glob {
      var (s1, p1) := SyncShared(g, s0, ms, s0.global, f);
      SharedKeeps(g, s0, ms, s0.global, f);
      s2 := s1.(global := p1);
    } else if f.upstream {
      CopiesKeep(g, s0, ms, f);
      s2 := SyncCopies(g, s0, ms, f);
    } else {
      s2 := s0;
    }
  }

  lemma SameEndIn(g: Graph, s: State, s': State, ms: seq<nat>, d: nat)
    requires Fits(g, s) && Fits(g, s') && MainlinesFit(g, ms) && AllEndIn(g, s, ms, d)
    requires forall u <- s.units :: s'.units[u].kind == s.units[u].kind
    ensures AllEndIn(g, s', ms, d)
  {
    forall m <- ms ensures EndsIn(g, s', m, d) {
      forall v <- Visits(g, m) ensures s'.units[v].kind == s.units[v].kind {}
    }
  }

  ghost predicate AllLinesSynced(g: Graph, s: State, ms: seq<nat>, d: nat)
    requires Fits(g, s) && MainlinesFit(g, ms) && d in g.outs
  {
    forall m <- ms, v <- Visits(g, m) :: LineSynced(g, s, v, d)
  }

  /** After a sync with any flags every unit reached has its line profile synced with what the units are
      then; a duration sync changes nothing but line profiles. */
  lemma SyncSyncsLines(g: Graph, s: State, ms: seq<nat>, f: Flags, d: nat)
    requires Fits(g, s) && MainlinesFit(g, ms) && AllEndIn(g, s, ms, d) && d in g.outs
    ensures var s' := Sync(g, s, ms, f);
      && AllEndIn(g, s', ms, d) && AllLinesSynced(g, s', ms, d)
      && (f.duration ==> OnlyLines(s, s'))
  {
    CycleSyncs(g, s, ms, d);
    var s2 := SyncCloses(g, s, ms, f);
    SameEndIn(g, s, s2, ms, d);
    CycleSyncs(g, s2, ms, d);
    SameEndIn(g, s, Sync(g, s, ms, f), ms, d);
  }

  // ---------------------------------------------------------------------------------------------
  // The rack's iterations
  // ---------------------------------------------------------------------------------------------

  lemma SameLinesSynced(g: Graph, s: State, s': State, ms: seq<nat>, d: nat)
    requires Fits(g, s) && Fits(g, s') && MainlinesFit(g, ms) && d in g.outs && s'.units == s.units
    requires AllLinesSynced(g, s, ms, d)
    ensures AllLinesSynced(g, s', ms, d)
  {
    forall m <- ms, v <- Visits(g, m) ensures LineSynced(g, s', v, d) {
      SameUnitsSynced(g, s, s', v, d);
    }
  }

  lemma SameUnitsSynced(g: Graph, s: State, s': State, v: nat, d: nat)
    requires Fits(g, s) && Fits(g, s') && v in g.outs && d in g.outs && s'.units == s.units && LineSynced(g, s, v, d)
    ensures LineSynced(g, s', v, d)
  {
    SameUnits(g, s, s', Behind(g, v, 0));
  }

  /** The rack before the last sync of an iteration with requests, and the flags of that sync. */
  function AfterUpstream(g: Graph, s: State, ms: seq<nat>): (r: State)
    requires Fits(g, s) && MainlinesFit(g, ms)
    ensures Fits(g, r)
  {
    if s.flags.upstream then
      var t := Sync(g, s, ms, UPSTREAM);
      t.(flags := t.flags.(upstream := !t.flags.upstream))
    else s
  }

  /** An iteration in which a resync is pending leaves the line profiles of all units reached synced. */
  lemma IterationSyncsLines(g: Graph, s: State, ms: seq<nat>, d: nat)
    requires Fits(g, s) && MainlinesFit(g, ms) && AllEndIn(g, s, ms, d) && d in g.outs && s.resync
    ensures var s' := Iterate(g, s, ms);
      AllEndIn(g, s', ms, d) && AllLinesSynced(g, s', ms, d) && s'.flags == NONE && !s'.resync
  {
    var s' := Iterate(g, s, ms);
    if s.flags == NONE {
      CycleSyncs(g, s, ms, d);
      SameLinesSynced(g, Cycle(g, s, ms), s', ms, d);
      SameEndIn(g, s, s', ms, d);
    } else {
      SyncSyncsLines(g, s, ms, UPSTREAM, d);
      var t := AfterUpstream(g, s, ms);
      if s.flags.upstream { SameEndIn(g, Sync(g, s, ms, UPSTREAM), t, ms, d); }
      SyncSyncsLines(g, t, ms, t.flags, d);
      SameLinesSynced(g, Sync(g, t, ms, t.flags), s', ms, d);
      SameEndIn(g, Sync(g, t, ms, t.flags), s', ms, d);
    }
  }

  /** Whether a unit is left out of the AC cycles after such an iteration depends on what the units are then:
      it is exactly when some unit strictly downstream is flushing, or it is the dispatch and flushing. */
  lemma SkipsAfterIteration(g: Graph, s: State, ms: seq<nat>, d: nat, m: nat, v: nat)
    requires Fits(g, s) && MainlinesFit(g, ms) && AllEndIn(g, s, ms, d) && d in g.outs && s.resync
    requires m in ms && v in Visits(g, m)
    ensures var s' := Iterate(g, s, ms);
      SkipsAcCycle(s'.units[v]) <==>
      (v == d && s'.units[d].unitProfile.state == FLUSHING) ||
      exists path :: IsPath(g, v, path) && path != [] && s'.units[End(g, v, path)].unitProfile.state == FLUSHING
  {
    IterationSyncsLines(g, s, ms, d);
    SyncedSkips(g, Iterate(g, s, ms), m, v, d);
  }

  lemma UpstreamLeavesRequests(g: Graph, s: State, ms: seq<nat>)
    requires Fits(g, s) && MainlinesFit(g, ms) && s.flags.upstream
    ensures var t := AfterUpstream(g, s, ms);
      t.flags == s.flags.(upstream := false, glob := t.flags.glob) && (s.flags.glob ==> t.flags.glob)
  {
    var s2 := SyncCloses(g, s, ms, UPSTREAM);
    CycleProfilesAll(g, s2, ms);
    ProfileAllLines(g, s2, AllVisits(g, ms));
  }

  lemma SameAgreement(g: Graph, s: State, s': State, ms: seq<nat>, d: nat)
    requires Fits(g, s) && Fits(g, s') && MainlinesFit(g, ms) && d in g.outs
    requires s'.units == s.units && s'.global == s.global
    requires AllAgree(g, s, ms, d)
    ensures AllAgree(g, s', ms, d)
  {
  }

  /** An iteration with a global request ends with the whole rack agreeing with its dispatch unit, also when an
      upstream request comes first. */
  lemma GlobalIterationAgrees(g: Graph, s: State, ms: seq<nat>, d: nat)
    requires Fits(g, s) && MainlinesFit(g, ms) && AllEndIn(g, s, ms, d) && d in g.outs && d !in ms && ms != []
    requires s.resync && s.flags.glob && !s.flags.duration
    ensures AllAgree(g, Iterate(g, s, ms), ms, d)
  {
    var t := AfterUpstream(g, s, ms);
    if s.flags.upstream {
      UpstreamLeavesRequests(g, s, ms);
      SyncSyncsLines(g, s, ms, UPSTREAM, d);
      SameEndIn(g, Sync(g, s, ms, UPSTREAM), t, ms, d);
    }
    GlobalSyncAgrees(g, t, ms, t.flags, d);
    SameAgreement(g, Sync(g, t, ms, t.flags), Iterate(g, s, ms), ms, d);
  }

  /** The profiles that agreement is about are the same. */
  lemma SameGlobals(g: Graph, s: State, s': State, ms: seq<nat>, d: nat)
    requires Fits(g, s) && Fits(g, s') && MainlinesFit(g, ms) && d in g.outs && s'.global == s.global
    requires forall u <- s.units :: s'.units[u] == s.units[u].(lineProfile := s'.units[u].lineProfile)
    ensures AllAgree(g, s', ms, d) <==> AllAgree(g, s, ms, d)
  {
  }

  /** A duration request that is still pending makes the iteration forget the global one beside it: no request is
      left, and the rack agrees with its dispatch unit exactly if it did so before, or behind the upstream part. */
  lemma DurationForgetsGlobal(g: Graph, s: State, ms: seq<nat>, d: nat)
    requires Fits(g, s) && MainlinesFit(g, ms) && AllEndIn(g, s, ms, d) && d in g.outs
    requires s.resync && s.flags.duration
    ensures var s' := Iterate(g, s, ms);
      && s'.flags == NONE && !s'.resync
      && (AllAgree(g, s', ms, d) <==> AllAgree(g, AfterUpstream(g, s, ms), ms, d))
  {
    var t := AfterUpstream(g, s, ms);
    if s.flags.upstream {
      UpstreamLeavesRequests(g, s, ms);
      SyncSyncsLines(g, s, ms, UPSTREAM, d);
      SameEndIn(g, Sync(g, s, ms, UPSTREAM), t, ms, d);
    }
    SyncSyncsLines(g, t, ms, t.flags, d);
    SameGlobals(g, t, Sync(g, t, ms, t.flags), ms, d);
    SameGlobals(g, Sync(g, t, ms, t.flags), Iterate(g, s, ms), ms, d);
  }

  // ---------------------------------------------------------------------------------------------
  // Requests
  // ---------------------------------------------------------------------------------------------

  datatype Request = Source | Duration | Global | Upstream | Downstream

  predicate Has(f: Flags, r: Request) {
    match r
    case Source => f.source
    case Duration => f.duration
    case Global => f.glob
    case Upstream => f.upstream
    case Downstream => f.downstream
  }

  function TriggerAll(s: State, fs: seq<Flags>): State {
    if fs == [] then s else RackTriggerSync(TriggerAll(s, fs[..|fs| - 1]), fs[|fs| - 1])
  }

  lemma TriggerJoins(s: State, f: Flags, r: Request)
    ensures var t := RackTriggerSync(s, f);
      t == s.(flags := t.flags, resync := true) && (Has(t.flags, r) <==> Has(s.flags, r) || Has(f, r))
  {
  }

  /** Requests add up until the rack thread has met them: what is waiting is what was waiting and what any of
      them has asked for, in whatever order. */
  lemma {:induction false} TriggersAddUp(s: State, fs: seq<Flags>, r: Request)
    ensures var t := TriggerAll(s, fs);
      t == s.(flags := t.flags, resync := t.resync) && (t.resync <==> s.resync || fs != [])
    ensures Has(TriggerAll(s, fs).flags, r) <==> Has(s.flags, r) || exists f <- fs :: Has(f, r)
    decreases |fs|
  {
    if fs == [] {
    } else {
      var before, f := fs[..|fs| - 1], fs[|fs| - 1];
      TriggersAddUp(s, before, r);
      TriggerJoins(TriggerAll(s, before), f, r);
      assert forall x :: x in fs <==> x in before || x == f;
    }
  }
}
