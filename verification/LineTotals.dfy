/** What sync cycles add up to in a line profile. A cycle sets the state, the period and the drift of a line
    profile back before it profiles the line, and nothing else: jumps and latency go on from where they are. */
module LineTotals {
  import opened GlobalSync
  import opened LineProfiles
  import opened SyncCycles
  import opened UnitSync

  /** `q` is `p` after the line over the units `below`, of the total latency `lat`, has been profiled `n`
      times: their number and latency have been added each time, and what none of them sets has stayed. */
  ghost predicate Grows(s: State, below: seq<nat>, lat: int, n: nat, p: Profile, q: Profile)
    requires forall v <- below :: v in s.units
  {
    && q.jumps == p.jumps + n * |below| && q.latency == p.latency + n * lat
    && if n == 0 then q == p else KeepsRest(s, below, p, q)
  }

  lemma KeepsRestThen(s: State, vs: seq<nat>, p: Profile, q: Profile, r: Profile)
    requires (forall v <- vs :: v in s.units) && KeepsRest(s, vs, p, q) && KeepsRest(s, vs, q, r)
    ensures KeepsRest(s, vs, p, r)
  {
  }

  lemma TimesAdd(m: nat, n: nat, x: int)
    ensures (m + n) * x == m * x + n * x
  {
  }

  lemma GrowsThen(s: State, below: seq<nat>, lat: int, m: nat, n: nat, k: nat, p: Profile, q: Profile, r: Profile)
    requires (forall v <- below :: v in s.units) && Grows(s, below, lat, m, p, q) && Grows(s, below, lat, n, q, r)
    requires k == m + n
    ensures Grows(s, below, lat, k, p, r)
  {
    TimesAdd(m, n, |below|);
    TimesAdd(m, n, lat);
    if m > 0 && n > 0 { KeepsRestThen(s, below, p, q, r); }
  }

  /** The units are the same but for states, line and global profiles and inputs. */
  predicate SameProfiles(s: State, t: State) {
    && t.units.Keys == s.units.Keys
    && forall u <- s.units :: t.units[u].unitProfile == s.units[u].unitProfile.(state := t.units[u].unitProfile.state)
  }

  lemma {:induction false} SameLatency(s: State, t: State, vs: seq<nat>)
    requires SameProfiles(s, t) && forall v <- vs :: v in s.units
    ensures TotalLatency(t, vs) == TotalLatency(s, vs)
    decreases |vs|
  {
    if vs == [] {
    } else {
      SameLatency(s, t, vs[1..]);
    }
  }

  lemma SameRest(s: State, t: State, vs: seq<nat>, p: Profile, q: Profile)
    requires SameProfiles(s, t) && (forall v <- vs :: v in s.units) && KeepsRest(t, vs, p, q)
    ensures KeepsRest(s, vs, p, q)
  {
    forall v <- vs, m: Setting ensures Get(t.units[v].unitProfile, m) == Get(s.units[v].unitProfile, m) {}
    forall m: Setting | NoneSets(s, vs, m) ensures Get(q, m) == Get(p, m) {
      assert NoneSets(t, vs, m);
    }
  }

  lemma KeepsRestFrom(s: State, vs: seq<nat>, start: Profile, p: Profile, q: Profile)
    requires (forall v <- vs :: v in s.units) && KeepsRest(s, vs, start, q)
    requires start == p.(state := start.state, period := start.period, drift := start.drift)
    ensures KeepsRest(s, vs, p, q)
  {
    forall m: Setting | NoneSets(s, vs, m) ensures Get(q, m) == Get(p, m) {
      assert Get(start, m) == Get(p, m);
    }
  }

  /** One profiling. */
  lemma OwnProfiling(g: Graph, s: State, t: State, u: nat, below: seq<nat>, lat: int)
    requires Fits(g, s) && Fits(g, t) && SameProfiles(s, t) && u in g.outs
    requires below == Behind(g, u, 0) && lat == TotalLatency(s, below)
    ensures Grows(s, below, lat, 1, t.units[u].lineProfile, Fold(t, below, LineStart(t, u)))
  {
    var start := LineStart(t, u);
    FoldCounts(t, below, start);
    SameLatency(s, t, below);
    FoldReflects(t, below, start);
    KeepsRestFrom(t, below, start, t.units[u].lineProfile, Fold(t, below, start));
    SameRest(s, t, below, t.units[u].lineProfile, Fold(t, below, start));
  }

  lemma OneProfiling(g: Graph, s: State, t: State, u: nat, v: nat, below: seq<nat>, lat: int)
    requires Fits(g, s) && Fits(g, t) && SameProfiles(s, t) && u in g.outs && v in g.outs
    requires below == Behind(g, v, 0) && lat == TotalLatency(s, below)
    ensures var t' := ProfileLine(g, t, u);
      && OnlyLines(t, t')
      && Grows(s, below, lat, if v == u then 1 else 0, t.units[v].lineProfile, t'.units[v].lineProfile)
  {
    ProfileLineFolds(g, t, u);
    if u == v { OwnProfiling(g, s, t, u, below, lat); }
  }

  lemma CountNext(vs: seq<nat>, v: nat)
    requires vs != []
    ensures multiset(vs)[v] == (if v == vs[0] then 1 else 0) + multiset(vs[1..])[v]
  {
    assert vs == [vs[0]] + vs[1..];
  }

  /** What a unit's line profile is after a list of units has been profiled. */
  function LineAfter(g: Graph, t: State, vs: seq<nat>, v: nat): Profile
    requires Fits(g, t) && MainlinesFit(g, vs) && v in g.outs
  {
    ProfileAll(g, t, vs).units[v].lineProfile
  }

  lemma {:induction false} ProfileAllGrows(g: Graph, s: State, t: State, vs: seq<nat>, v: nat, below: seq<nat>,
                                           lat: int,
                                           n: nat)
    requires Fits(g, s) && Fits(g, t) && SameProfiles(s, t) && MainlinesFit(g, vs) && v in g.outs
    requires below == Behind(g, v, 0) && lat == TotalLatency(s, below) && n == multiset(vs)[v]
    ensures Grows(s, below, lat, n, t.units[v].lineProfile, LineAfter(g, t, vs, v))
    decreases |vs|
  {
    if vs == [] {
    } else {
      var t1, m := ProfileLine(g, t, vs[0]), if v == vs[0] then 1 else 0;
      OneProfiling(g, s, t, vs[0], v, below, lat);
      var k := multiset(vs[1..])[v];
      CountNext(vs, v);
      ProfileAllGrows(g, s, t1, vs[1..], v, below, lat, k);
      var p, q, r := t.units[v].lineProfile, t1.units[v].lineProfile, LineAfter(g, t, vs, v);
      assert r == LineAfter(g, t1, vs[1..], v);
      GrowsThen(s, below, lat, m, k, n, p, q, r);
    }
  }

  /** A sync cycle profiles the line of a unit once for every path that leads to it from a mainline. */
  lemma CycleGrows(g: Graph, s: State, t: State, ms: seq<nat>, v: nat, below: seq<nat>, lat: int, n: nat)
    requires Fits(g, s) && Fits(g, t) && SameProfiles(s, t) && MainlinesFit(g, ms) && v in g.outs
    requires below == Behind(g, v, 0) && lat == TotalLatency(s, below) && n == multiset(AllVisits(g, ms))[v]
    ensures var t' := Cycle(g, t, ms);
      SameProfiles(s, t') && Grows(s, below, lat, n, t.units[v].lineProfile, t'.units[v].lineProfile)
  {
    CycleProfilesAll(g, t, ms);
    ProfileAllLines(g, t, AllVisits(g, ms));
    ProfileAllGrows(g, s, t, AllVisits(g, ms), v, below, lat, n);
  }

  /** The cycle that a downstream request puts in front, and the closing one. */
  lemma ClosingGrows(g: Graph, s: State, t: State, t2: State, t': State, ms: seq<nat>, v: nat, below: seq<nat>,
                     lat: int,
                     n: nat)
    requires Fits(g, s) && Fits(g, t) && Fits(g, t2) && SameProfiles(s, t) && MainlinesFit(g, ms) && v in g.outs
    requires below == Behind(g, v, 0) && lat == TotalLatency(s, below) && n == multiset(AllVisits(g, ms))[v]
    requires SameLines(t, t2) && t' == Cycle(g, t2, ms)
    ensures SameProfiles(s, t') && Grows(s, below, lat, n, t.units[v].lineProfile, t'.units[v].lineProfile)
  {
    CycleGrows(g, s, t2, ms, v, below, lat, n);
  }

  /** A sync adds to line profiles what one cycle does, and two when a downstream sync is asked for. */
  lemma SyncGrows(g: Graph, s: State, t: State, ms: seq<nat>, f: Flags, v: nat, below: seq<nat>, lat: int, n: nat,
                  n2: nat)
    requires Fits(g, s) && Fits(g, t) && SameProfiles(s, t) && MainlinesFit(g, ms) && v in g.outs
    requires below == Behind(g, v, 0) && lat == TotalLatency(s, below) && n == multiset(AllVisits(g, ms))[v]
    requires n2 == n + n
    ensures var t' := Sync(g, t, ms, f); var p, q := t.units[v].lineProfile, t'.units[v].lineProfile;
      && SameProfiles(s, t')
      && if f.downstream then Grows(s, below, lat, n2, p, q) else Grows(s, below, lat, n, p, q)
  {
    var t0, t' := Opened(g, t, ms, f), Sync(g, t, ms, f);
    var t2 := SyncCloses(g, t, ms, f);
    if f.downstream {
      CycleGrows(g, s, t, ms, v, below, lat, n);
      ClosingGrows(g, s, t0, t2, t', ms, v, below, lat, n);
      GrowsThen(s, below, lat, n, n, n2, t.units[v].lineProfile, t0.units[v].lineProfile, t'.units[v].lineProfile);
    } else {
      ClosingGrows(g, s, t, t2, t', ms, v, below, lat, n);
    }
  }

  lemma UpstreamKeepsRequest(g: Graph, s: State, ms: seq<nat>)
    requires Fits(g, s) && MainlinesFit(g, ms)
    ensures Sync(g, s, ms, UPSTREAM).flags.downstream == s.flags.downstream
  {
    var s2 := SyncCloses(g, s, ms, UPSTREAM);
    CycleProfilesAll(g, s2, ms);
    ProfileAllLines(g, s2, AllVisits(g, ms));
  }

  /** The line profile after the upstream part of an iteration, and what the rest adds to it. */
  lemma UpstreamGrows(g: Graph, s: State, ms: seq<nat>, v: nat, below: seq<nat>, lat: int, n: nat, n2: nat)
    returns (m: Profile)
    requires Fits(g, s) && MainlinesFit(g, ms) && v in g.outs && s.resync && s.flags.upstream
    requires below == Behind(g, v, 0) && lat == TotalLatency(s, below) && n == multiset(AllVisits(g, ms))[v]
    requires n2 == n + n
    ensures Grows(s, below, lat, n, s.units[v].lineProfile, m)
    ensures var q := Iterate(g, s, ms).units[v].lineProfile;
      if s.flags.downstream then Grows(s, below, lat, n2, m, q) else Grows(s, below, lat, n, m, q)
  {
    var t := AfterUpstream(g, s, ms);
    UpstreamKeepsRequest(g, s, ms);
    SyncGrows(g, s, s, ms, UPSTREAM, v, below, lat, n, n2);
    SyncGrows(g, s, t, ms, t.flags, v, below, lat, n, n2);
    m := t.units[v].lineProfile;
  }

  lemma UpstreamIterationGrows(g: Graph, s: State, ms: seq<nat>, v: nat, below: seq<nat>, lat: int, n: nat,
                               n2: nat, n3: nat, q: Profile)
    requires Fits(g, s) && MainlinesFit(g, ms) && v in g.outs && s.resync && s.flags.upstream
    requires below == Behind(g, v, 0) && lat == TotalLatency(s, below) && n == multiset(AllVisits(g, ms))[v]
    requires n2 == n + n && n3 == n + n2 && q == Iterate(g, s, ms).units[v].lineProfile
    ensures var p := s.units[v].lineProfile;
      if s.flags.downstream then Grows(s, below, lat, n3, p, q) else Grows(s, below, lat, n2, p, q)
  {
    var p := s.units[v].lineProfile;
    var m := UpstreamGrows(g, s, ms, v, below, lat, n, n2);
    if s.flags.downstream {
      GrowsThen(s, below, lat, n, n2, n3, p, m, q);
    } else {
      GrowsThen(s, below, lat, n, n, n2, p, m, q);
    }
  }

  lemma OtherIterationGrows(g: Graph, s: State, ms: seq<nat>, v: nat, below: seq<nat>, lat: int, n: nat, n2: nat,
                            n3: nat, q: Profile)
    requires Fits(g, s) && MainlinesFit(g, ms) && v in g.outs && s.resync && !s.flags.upstream
    requires below == Behind(g, v, 0) && lat == TotalLatency(s, below) && n == multiset(AllVisits(g, ms))[v]
    requires n2 == n + n && n3 == n + n2 && q == Iterate(g, s, ms).units[v].lineProfile
    ensures var p := s.units[v].lineProfile;
      if s.flags.downstream then Grows(s, below, lat, n2, p, q) else Grows(s, below, lat, n, p, q)
  {
    if s.flags == NONE {
      CycleGrows(g, s, s, ms, v, below, lat, n);
    } else {
      SyncGrows(g, s, s, ms, s.flags, v, below, lat, n, n2);
    }
  }

  /** What an iteration adds to the line profile of a unit that a cycle visits `n` times: nothing without a
      resync, and otherwise what as many cycles add as an upstream request, a downstream request and the
      closing cycle make. So jumps and latency tell how often the line has been profiled, not how long it is. */
  lemma IterationGrows(g: Graph, s: State, ms: seq<nat>, v: nat, below: seq<nat>, lat: int, n: nat, n2: nat, n3: nat)
    requires Fits(g, s) && MainlinesFit(g, ms) && v in g.outs
    requires below == Behind(g, v, 0) && lat == TotalLatency(s, below) && n == multiset(AllVisits(g, ms))[v]
    requires n2 == n + n && n3 == n + n2
    ensures var p, q, f := s.units[v].lineProfile, Iterate(g, s, ms).units[v].lineProfile, s.flags;
      if !s.resync then q == p
      else if f.upstream && f.downstream then Grows(s, below, lat, n3, p, q)
      else if f.upstream || f.downstream then Grows(s, below, lat, n2, p, q)
      else Grows(s, below, lat, n, p, q)
  {
    var q := Iterate(g, s, ms).units[v].lineProfile;
    if s.resync && s.flags.upstream {
      UpstreamIterationGrows(g, s, ms, v, below, lat, n, n2, n3, q);
    } else if s.resync {
      OtherIterationGrows(g, s, ms, v, below, lat, n, n2, n3, q);
    }
  }
}
