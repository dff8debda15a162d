/** What a global sync makes of all that a profile carries besides the rack's state and period: channels, rate,
    tempo and fill in every unit reached, and the whole of the backend's profile. On any acyclic graph. */
module GlobalFields {
  import opened GlobalSync
  import opened LineProfiles
  import opened SyncCycles
  import opened UnitSync

  /** What one visit does to the profile in a global sync, before what is behind the unit is walked. */
  function GlobalEffect(unit: Unit, p: Profile): Profile {
    var p1 := if unit.kind.Dispatch? && p.state != FLUSHING then p.(state := unit.unitProfile.state) else p;
    var p2 := if unit.kind.Dispatch? then p1.(period := unit.unitProfile.period) else p1;
    Unflushed(Apply(unit.unitProfile, p2))
  }

  function GlobalFold(s: State, vs: seq<nat>, p: Profile): Profile
    requires forall v <- vs :: v in s.units
  {
    if vs == [] then p else GlobalFold(s, vs[1..], GlobalEffect(s.units[vs[0]], p))
  }

  lemma {:induction false} GlobalFoldConcat(s: State, vs: seq<nat>, ws: seq<nat>, p: Profile)
    requires forall v <- vs + ws :: v in s.units
    requires (forall v <- vs :: v in s.units) && (forall v <- ws :: v in s.units)
    ensures GlobalFold(s, vs + ws, p) == GlobalFold(s, ws, GlobalFold(s, vs, p))
    decreases |vs|
  {
    if vs == [] {
      assert vs + ws == ws;
    } else {
      assert (vs + ws)[1..] == vs[1..] + ws;
      GlobalFoldConcat(s, vs[1..], ws, GlobalEffect(s.units[vs[0]], p));
    }
  }

  /** The same but for state and period. */
  predicate Besides(p: Profile, q: Profile) { p.(state := q.state, period := q.period) == q }

  /** In all but state and period a global sync folds as a walk without flags does. */
  lemma {:induction false} GlobalFoldIsFold(s: State, vs: seq<nat>, p: Profile, q: Profile)
    requires (forall v <- vs :: v in s.units) && Besides(p, q)
    ensures Besides(GlobalFold(s, vs, p), Fold(s, vs, q))
    decreases |vs|
  {
    if vs == [] {
    } else {
      GlobalFoldIsFold(s, vs[1..], GlobalEffect(s.units[vs[0]], p), Effect(s.units[vs[0]], q));
    }
  }

  /** What the fold makes of settings and fill. */
  lemma GlobalFoldReflects(s: State, vs: seq<nat>, p: Profile)
    requires forall v <- vs :: v in s.units
    ensures Reflects(s, vs, GlobalFold(s, vs, p)) && KeepsRest(s, vs, p, GlobalFold(s, vs, p))
  {
    var q, r := GlobalFold(s, vs, p), Fold(s, vs, p);
    GlobalFoldIsFold(s, vs, p, p);
    FoldReflects(s, vs, p);
    forall m: Setting ensures Get(q, m) == Get(r, m) {}
  }

  // ---------------------------------------------------------------------------------------------
  // What the units are left with
  // ---------------------------------------------------------------------------------------------

  /** A global sync leaves latency, jumps and drift of a unit's global profile alone. */
  predicate KeepsOthers(s: State, s': State)
    requires s'.units.Keys == s.units.Keys
  {
    forall u <- s.units ::
      var p, q := s.units[u].globalProfile, s'.units[u].globalProfile;
      q.latency == p.latency && q.jumps == p.jumps && q.drift == p.drift
  }

  /** From `s` to `s'` the units `vs` have got what the units behind them, and they themselves, have set. */
  ghost predicate Stored(g: Graph, s: State, s': State, vs: seq<nat>)
    requires Fits(g, s)
  {
    && OnlyGlobals(s, s') && KeepsOthers(s, s') && Only(s, s', vs)
    && forall v <- vs :: v in g.outs && Reflects(s, Visits(g, v), s'.units[v].globalProfile)
  }

  lemma StoredThen(g: Graph, s: State, s1: State, s2: State, vs: seq<nat>, ws: seq<nat>)
    requires Fits(g, s) && Fits(g, s1) && Stored(g, s, s1, vs) && Stored(g, s1, s2, ws)
    ensures Stored(g, s, s2, vs + ws)
  {
    forall v <- vs + ws ensures v in g.outs && Reflects(s, Visits(g, v), s2.units[v].globalProfile) {
      if v in ws {
        SameReflected(s1, s, Visits(g, v), s2.units[v].globalProfile);
      } else {
        assert v in vs && s2.units[v] == s1.units[v];
      }
    }
  }

  lemma StoresAlso(g: Graph, s: State, s1: State, u: nat, q: Profile, below: seq<nat>, vs: seq<nat>)
    requires Fits(g, s) && Fits(g, s1) && u in g.outs && Stored(g, s, s1, below)
    requires vs == [u] + below && vs == Visits(g, u) && Reflects(s, vs, q)
    requires var p := s1.units[u].globalProfile; q.latency == p.latency && q.jumps == p.jumps && q.drift == p.drift
    ensures Stored(g, s, Put(s1, u, s1.units[u].(globalProfile := q)), vs)
  {
  }

  lemma StoresFields(g: Graph, s: State, s1: State, u: nat, p: Profile)
    requires Fits(g, s) && Fits(g, s1) && u in g.outs && Stored(g, s, s1, Behind(g, u, 0))
    requires Reflects(s, Visits(g, u), p)
    ensures var stored := StoreGlobal(s1.units[u].globalProfile, p);
      Stored(g, s, Put(s1, u, s1.units[u].(globalProfile := stored)), Visits(g, u))
  {
    var stored := StoreGlobal(s1.units[u].globalProfile, p);
    forall m: Setting ensures Get(stored, m) == Get(p, m) {}
    StoresAlso(g, s, s1, u, stored, Behind(g, u, 0), Visits(g, u));
  }

  /** A global sync entering a unit. */
  lemma {:induction false} FieldsWalk(g: Graph, s: State, u: nat, p: Profile, f: Flags, line: nat)
    requires Fits(g, s) && u in g.outs && Globally(f)
    ensures var (s', p') := SyncLine(g, s, u, p, f, line);
      Stored(g, s, s', Visits(g, u)) && p' == GlobalFold(s, Visits(g, u), p)
    decreases g.rank[u], 1
  {
    var q := GlobalEffect(s.units[u], p);
    var (s1, p1) := ContinueSync(g, s, u, 0, q, f);
    FieldsBehind(g, s, u, 0, q, f);
    assert Visits(g, u)[1..] == Behind(g, u, 0) && Visits(g, u)[0] == u;
    GlobalFoldReflects(s, Visits(g, u), p);
    assert p1 == GlobalFold(s, Visits(g, u), p);
    StoresFields(g, s, s1, u, p1);
    assert SyncLine(g, s, u, p, f, line) ==
      (Put(s1, u, s1.units[u].(globalProfile := StoreGlobal(s1.units[u].globalProfile, p1))), p1);
  }

  lemma {:induction false} FieldsBehind(g: Graph, s: State, u: nat, i: nat, p: Profile, f: Flags)
    requires Fits(g, s) && u in g.outs && i <= |g.outs[u]| && Globally(f)
    ensures var (s', p') := ContinueSync(g, s, u, i, p, f);
      Stored(g, s, s', Behind(g, u, i)) && p' == GlobalFold(s, Behind(g, u, i), p)
    decreases g.rank[u], 0, |g.outs[u]| - i
  {
    if i == |g.outs[u]| {
    } else {
      if g.outs[u][i].connected {
        var to := g.outs[u][i].to;
        FieldsWalk(g, s, to, p, f, g.outs[u][i].input);
        var (s1, p1) := SyncLine(g, s, to, p, f, g.outs[u][i].input);
        FieldsBehind(g, s1, u, i + 1, p1, f);
        FoldsSame(s, s1, Behind(g, u, i + 1), p1);
        StoredThen(g, s, s1, ContinueSync(g, s1, u, i + 1, p1, f).0, Visits(g, to), Behind(g, u, i + 1));
        GlobalFoldConcat(s, Visits(g, to), Behind(g, u, i + 1), p);
      } else {
        FieldsBehind(g, s, u, i + 1, p, f);
      }
    }
  }

  /** The fold does not depend on what a sync writes. */
  lemma {:induction false} FoldsSame(s: State, s': State, vs: seq<nat>, p: Profile)
    requires forall v <- vs :: v in s.units && v in s'.units
    requires forall v <- vs :: s'.units[v].unitProfile == s.units[v].unitProfile && s'.units[v].kind == s.units[v].kind
    ensures GlobalFold(s', vs, p) == GlobalFold(s, vs, p)
    decreases |vs|
  {
    if vs == [] {
    } else {
      FoldsSame(s, s', vs[1..], GlobalEffect(s.units[vs[0]], p));
    }
  }

  lemma {:induction false} SharedFields(g: Graph, s: State, ms: seq<nat>, p: Profile, f: Flags)
    requires Fits(g, s) && MainlinesFit(g, ms) && Globally(f)
    ensures MainlinesFit(g, AllVisits(g, ms))
    ensures var (s', p') := SyncShared(g, s, ms, p, f);
      Stored(g, s, s', AllVisits(g, ms)) && p' == GlobalFold(s, AllVisits(g, ms), p)
    decreases |ms|
  {
    AllVisitsFit(g, ms);
    if ms == [] {
    } else {
      FieldsWalk(g, s, ms[0], p, f, 0);
      var (s1, p1) := SyncLine(g, s, ms[0], p, f, 0);
      SharedFields(g, s1, ms[1..], p1, f);
      FoldsSame(s, s1, AllVisits(g, ms[1..]), p1);
      StoredThen(g, s, s1, SyncShared(g, s1, ms[1..], p1, f).0, Visits(g, ms[0]), AllVisits(g, ms[1..]));
      GlobalFoldConcat(s, Visits(g, ms[0]), AllVisits(g, ms[1..]), p);
    }
  }

  // ---------------------------------------------------------------------------------------------
  // The whole sync
  // ---------------------------------------------------------------------------------------------

  /** The backend's profile when one profile has been handed to all mainlines: one jump for every path, all
      latencies, the folded drift, and what the units have set. */
  ghost predicate Gathered(s: State, vs: seq<nat>, p: Profile, q: Profile)
    requires forall v <- vs :: v in s.units
  {
    && q.jumps == p.jumps + |vs| && q.latency == p.latency + TotalLatency(s, vs)
    && q.drift == FoldDrift(Drifts(s, vs), p.drift)
    && Reflects(s, vs, q) && KeepsRest(s, vs, p, q)
  }

  lemma GlobalFoldGathers(s: State, vs: seq<nat>, p: Profile)
    requires forall v <- vs :: v in s.units
    ensures Gathered(s, vs, p, GlobalFold(s, vs, p))
  {
    GlobalFoldIsFold(s, vs, p, p);
    FoldCounts(s, vs, p);
    FoldsDrift(s, vs, p);
    GlobalFoldReflects(s, vs, p);
  }

  /** The parts of the state that a sync cycle leaves alone are the same. */
  predicate ButLines(s: State, s': State) {
    && s'.units.Keys == s.units.Keys && s'.global == s.global
    && forall u <- s.units :: s'.units[u].(lineProfile := s.units[u].lineProfile) == s.units[u]
  }

  lemma CyclesKeepGlobals(g: Graph, s: State, ms: seq<nat>)
    requires Fits(g, s) && MainlinesFit(g, ms)
    ensures ButLines(s, Cycle(g, s, ms))
  {
    CycleProfilesAll(g, s, ms);
    ProfileAllLines(g, s, AllVisits(g, ms));
  }

  lemma StoredBetween(g: Graph, s: State, s0: State, s1: State, s': State, vs: seq<nat>)
    requires Fits(g, s) && Fits(g, s0) && ButLines(s, s0) && Stored(g, s0, s1, vs) && s1.units.Keys == s'.units.Keys
    requires forall u <- s1.units :: s'.units[u].globalProfile == s1.units[u].globalProfile
    ensures s'.units.Keys == s.units.Keys && KeepsOthers(s, s')
    ensures forall v <- vs :: v in g.outs && Reflects(s, Visits(g, v), s'.units[v].globalProfile)
    ensures forall u <- s.units :: u in vs || s'.units[u].globalProfile == s.units[u].globalProfile
  {
    forall u <- s.units ensures s0.units[u].globalProfile == s.units[u].globalProfile {}
    forall v <- vs ensures v in g.outs && Reflects(s, Visits(g, v), s'.units[v].globalProfile) {
      SameReflected(s0, s, Visits(g, v), s1.units[v].globalProfile);
    }
  }

  lemma GatheredSame(s: State, s0: State, vs: seq<nat>, p: Profile)
    requires (forall v <- vs :: v in s.units) && ButLines(s, s0)
    ensures GlobalFold(s0, vs, p) == GlobalFold(s, vs, p)
  {
    forall v <- vs ensures s0.units[v].unitProfile == s.units[v].unitProfile && s0.units[v].kind == s.units[v].kind {
      assert s0.units[v].(lineProfile := s.units[v].lineProfile) == s.units[v];
    }
    FoldsSame(s, s0, vs, p);
  }

  /** A global sync leaves in every unit reached from a mainline the channels, rate and tempo of the last unit,
      itself or behind it, that sets them, and a fill no smaller than theirs; other units, and the latency,
      jumps and drift in all units, stay. The backend's profile gathers all visits. */
  lemma GlobalSyncFields(g: Graph, s: State, ms: seq<nat>, f: Flags)
    requires Fits(g, s) && MainlinesFit(g, ms) && Globally(f) && !f.duration
    ensures MainlinesFit(g, AllVisits(g, ms))
    ensures var s' := Sync(g, s, ms, f);
      && KeepsOthers(s, s')
      && (forall m <- ms, v <- Visits(g, m) :: Reflects(s, Visits(g, v), s'.units[v].globalProfile))
      && (forall u <- s.units :: u in AllVisits(g, ms) || s'.units[u].globalProfile == s.units[u].globalProfile)
      && Gathered(s, AllVisits(g, ms), s.global, s'.global)
  {
    var vs, s0, s' := AllVisits(g, ms), Opened(g, s, ms, f), Sync(g, s, ms, f);
    AllVisitsFit(g, ms);
    CyclesKeepGlobals(g, s, ms);
    SharedFields(g, s0, ms, s0.global, f);
    var (s1, p1) := SyncShared(g, s0, ms, s0.global, f);
    var s2 := s1.(global := p1);
    CyclesKeepGlobals(g, s2, ms);
    assert s' == Cycle(g, s2, ms);
    forall u <- s1.units ensures s'.units[u].globalProfile == s1.units[u].globalProfile {
      assert s'.units[u].(lineProfile := s2.units[u].lineProfile) == s2.units[u];
    }
    StoredBetween(g, s, s0, s1, s', vs);
    GatheredSame(s, s0, vs, s.global);
    GlobalFoldGathers(s, vs, s.global);
    forall m <- ms, v <- Visits(g, m) ensures v in vs { VisitedFromMainline(g, ms, m, v); }
  }

  /** The size of the cache's blocks after the `resync` that follows a global sync with this profile: it is
      settled the first time and stays. */
  function BlocksFor(p: Profile, blockSize: int): int {
    if blockSize > 0 then blockSize else p.period * 2 * p.channels
  }

  /** The first global sync settles it as two of the dispatch's periods for every channel, channels being those of
      the last unit on the way that sets them, or what the backend started with. */
  lemma FirstSyncSizesBlocks(g: Graph, s: State, ms: seq<nat>, f: Flags, d: nat)
    requires Fits(g, s) && MainlinesFit(g, ms) && AllEndIn(g, s, ms, d) && d in g.outs && d !in ms && ms != []
    requires Globally(f) && !f.duration
    ensures MainlinesFit(g, AllVisits(g, ms))
    ensures var vs, size := AllVisits(g, ms), BlocksFor(Sync(g, s, ms, f).global, 0);
      var period := s.units[d].unitProfile.period;
      && (forall k: nat :: SetsLast(s, vs, Channels, k) ==>
            size == period * 2 * s.units[vs[k]].unitProfile.channels)
      && (NoneSets(s, vs, Channels) ==> size == period * 2 * s.global.channels)
  {
    GlobalSyncFields(g, s, ms, f);
    GlobalSyncAgrees(g, s, ms, f, d);
    var vs, q := AllVisits(g, ms), Sync(g, s, ms, f).global;
    forall k: nat | SetsLast(s, vs, Channels, k) ensures q.channels == s.units[vs[k]].unitProfile.channels {
      assert Get(q, Channels) == Get(s.units[vs[k]].unitProfile, Channels);
    }
    assert NoneSets(s, vs, Channels) ==> Get(q, Channels) == Get(s.global, Channels);
  }
}
