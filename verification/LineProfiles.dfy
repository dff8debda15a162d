/** What a line profile holds after a walk or a sync cycle: the walk without flags visits a unit once
    for every path that leads to it, and everything it computes is a fold over those visits. */
module LineProfiles {
  import opened Seqs
  import opened UnitSync

  // ---------------------------------------------------------------------------------------------
  // Paths
  // ---------------------------------------------------------------------------------------------

  /** A path is the sequence of output numbers followed. */
  predicate IsPath(g: Graph, u: nat, path: seq<nat>)
    requires Acyclic(g) && u in g.outs
    decreases |path|
  {
    path == [] ||
    (path[0] < |g.outs[u]| && g.outs[u][path[0]].connected && IsPath(g, g.outs[u][path[0]].to, path[1..]))
  }

  /** The unit a path leads to. */
  function End(g: Graph, u: nat, path: seq<nat>): (v: nat)
    requires Acyclic(g) && u in g.outs && IsPath(g, u, path)
    ensures v in g.outs
    decreases |path|
  {
    if path == [] then u else End(g, g.outs[u][path[0]].to, path[1..])
  }

  /** The units visited from `u`, in the order of the walk: `u`, then everything behind each output. */
  function Visits(g: Graph, u: nat): (vs: seq<nat>)
    requires Acyclic(g) && u in g.outs
    ensures forall v <- vs :: v in g.outs
    decreases g.rank[u], 1
  {
    [u] + Behind(g, u, 0)
  }

  /** The units visited behind the outputs of `u` from number `i` on. */
  function Behind(g: Graph, u: nat, i: nat): (vs: seq<nat>)
    requires Acyclic(g) && u in g.outs && i <= |g.outs[u]|
    ensures forall v <- vs :: v in g.outs
    decreases g.rank[u], 0, |g.outs[u]| - i
  {
    if i == |g.outs[u]| then []
    else if !g.outs[u][i].connected then Behind(g, u, i + 1)
    else Visits(g, g.outs[u][i].to) + Behind(g, u, i + 1)
  }

  /** All paths from `u`, in the order of the walk. */
  function Paths(g: Graph, u: nat): seq<seq<nat>>
    requires Acyclic(g) && u in g.outs
    decreases g.rank[u], 1
  {
    [[]] + PathsFrom(g, u, 0)
  }

  function PathsFrom(g: Graph, u: nat, i: nat): seq<seq<nat>>
    requires Acyclic(g) && u in g.outs && i <= |g.outs[u]|
    decreases g.rank[u], 0, |g.outs[u]| - i
  {
    if i == |g.outs[u]| then []
    else if !g.outs[u][i].connected then PathsFrom(g, u, i + 1)
    else Through(i, Paths(g, g.outs[u][i].to)) + PathsFrom(g, u, i + 1)
  }

  function Through(i: nat, paths: seq<seq<nat>>): (r: seq<seq<nat>>)
    ensures |r| == |paths| && forall k :: 0 <= k < |r| ==> r[k] == [i] + paths[k]
  {
    seq(|paths|, k requires 0 <= k < |paths| => [i] + paths[k])
  }

  /** The walk makes one visit for every path, to the unit the path leads to. */
  lemma {:induction false} VisitsFollowPaths(g: Graph, u: nat)
    requires Acyclic(g) && u in g.outs
    ensures |Paths(g, u)| == |Visits(g, u)|
    ensures forall k :: 0 <= k < |Paths(g, u)| ==>
      IsPath(g, u, Paths(g, u)[k]) && End(g, u, Paths(g, u)[k]) == Visits(g, u)[k]
    decreases g.rank[u], 1
  {
    BehindFollowsPaths(g, u, 0);
  }

  lemma {:induction false} BehindFollowsPaths(g: Graph, u: nat, i: nat)
    requires Acyclic(g) && u in g.outs && i <= |g.outs[u]|
    ensures |PathsFrom(g, u, i)| == |Behind(g, u, i)|
    ensures forall k :: 0 <= k < |PathsFrom(g, u, i)| ==>
      var path := PathsFrom(g, u, i)[k];
      path != [] && i <= path[0] && IsPath(g, u, path) && End(g, u, path) == Behind(g, u, i)[k]
    decreases g.rank[u], 0, |g.outs[u]| - i
  {
    if i == |g.outs[u]| {
    } else {
      BehindFollowsPaths(g, u, i + 1);
      if g.outs[u][i].connected {
        var to := g.outs[u][i].to;
        VisitsFollowPaths(g, to);
        forall k | 0 <= k < |Paths(g, to)|
          ensures IsPath(g, u, [i] + Paths(g, to)[k]) && End(g, u, [i] + Paths(g, to)[k]) == Visits(g, to)[k]
        {
          assert ([i] + Paths(g, to)[k])[1..] == Paths(g, to)[k];
        }
      }
    }
  }

  /** Every path is visited, and no path twice. */
  lemma {:induction false} PathsAreComplete(g: Graph, u: nat)
    requires Acyclic(g) && u in g.outs
    ensures Distinct(Paths(g, u))
    ensures forall path :: IsPath(g, u, path) ==> path in Paths(g, u)
    decreases g.rank[u], 1
  {
    PathsFromAreComplete(g, u, 0);
    BehindFollowsPaths(g, u, 0);
    forall path | IsPath(g, u, path) ensures path in Paths(g, u) {
      if path != [] {
        assert path in PathsFrom(g, u, 0);
      }
    }
  }

  lemma {:induction false} PathsFromAreComplete(g: Graph, u: nat, i: nat)
    requires Acyclic(g) && u in g.outs && i <= |g.outs[u]|
    ensures Distinct(PathsFrom(g, u, i))
    ensures forall path :: IsPath(g, u, path) && path != [] && i <= path[0] ==> path in PathsFrom(g, u, i)
    decreases g.rank[u], 0, |g.outs[u]| - i
  {
    if i == |g.outs[u]| {
    } else {
      PathsFromAreComplete(g, u, i + 1);
      if g.outs[u][i].connected {
        var to := g.outs[u][i].to;
        PathsAreComplete(g, to);
        BehindFollowsPaths(g, u, i + 1);
        var first := Through(i, Paths(g, to));
        forall k, l | 0 <= k < l < |first| ensures first[k] != first[l] {
          assert first[k][1..] == Paths(g, to)[k] && first[l][1..] == Paths(g, to)[l];
        }
        forall path | IsPath(g, u, path) && path != [] && path[0] == i ensures path in first {
          assert path[1..] in Paths(g, to);
          var k :| 0 <= k < |Paths(g, to)| && Paths(g, to)[k] == path[1..];
          assert path == [i] + path[1..] == first[k];
        }
      }
    }
  }

  // ---------------------------------------------------------------------------------------------
  // The walk is a fold over its visits
  // ---------------------------------------------------------------------------------------------

  /** What one visit does to the profile when no flag is set. */
  function Effect(unit: Unit, p: Profile): Profile {
    Apply(unit.unitProfile,
          if unit.kind.Dispatch? && p.state != FLUSHING then p.(state := unit.unitProfile.state) else p)
  }

  function Fold(s: State, vs: seq<nat>, p: Profile): Profile
    requires forall v <- vs :: v in s.units
  {
    if vs == [] then p else Fold(s, vs[1..], Effect(s.units[vs[0]], p))
  }

  lemma {:induction false} FoldConcat(s: State, vs: seq<nat>, ws: seq<nat>, p: Profile)
    requires forall v <- vs + ws :: v in s.units
    requires forall v <- vs :: v in s.units
    requires forall v <- ws :: v in s.units
    ensures Fold(s, vs + ws, p) == Fold(s, ws, Fold(s, vs, p))
    decreases |vs|
  {
    if vs == [] {
      assert vs + ws == ws;
    } else {
      assert (vs + ws)[1..] == vs[1..] + ws;
      FoldConcat(s, vs[1..], ws, Effect(s.units[vs[0]], p));
    }
  }

  /** A walk without flags changes no unit. */
  lemma {:induction false} LineWalk(g: Graph, s: State, u: nat, p: Profile, line: nat)
    requires Fits(g, s) && u in g.outs
    ensures SyncLine(g, s, u, p, NONE, line) == (s, Fold(s, Visits(g, u), p))
    decreases g.rank[u], 1
  {
    var q := Effect(s.units[u], p);
    assert SyncLine(g, s, u, p, NONE, line) == ContinueSync(g, s, u, 0, q, NONE);
    LineWalkBehind(g, s, u, 0, q);
    assert Visits(g, u)[1..] == Behind(g, u, 0);
  }

  lemma {:induction false} LineWalkBehind(g: Graph, s: State, u: nat, i: nat, p: Profile)
    requires Fits(g, s) && u in g.outs && i <= |g.outs[u]|
    ensures ContinueSync(g, s, u, i, p, NONE) == (s, Fold(s, Behind(g, u, i), p))
    decreases g.rank[u], 0, |g.outs[u]| - i
  {
    if i == |g.outs[u]| {
    } else {
      if g.outs[u][i].connected {
        var to := g.outs[u][i].to;
        LineWalk(g, s, to, p, g.outs[u][i].input);
        var p1 := Fold(s, Visits(g, to), p);
        LineWalkBehind(g, s, u, i + 1, p1);
        FoldConcat(s, Visits(g, to), Behind(g, u, i + 1), p);
      } else {
        LineWalkBehind(g, s, u, i + 1, p);
      }
    }
  }

  // ---------------------------------------------------------------------------------------------
  // What the fold computes, field by field
  // ---------------------------------------------------------------------------------------------

  function TotalLatency(s: State, vs: seq<nat>): int
    requires forall v <- vs :: v in s.units
  {
    if vs == [] then 0 else s.units[vs[0]].unitProfile.latency + TotalLatency(s, vs[1..])
  }

  lemma {:induction false} FoldCounts(s: State, vs: seq<nat>, p: Profile)
    requires forall v <- vs :: v in s.units
    ensures Fold(s, vs, p).jumps == p.jumps + |vs|
    ensures Fold(s, vs, p).latency == p.latency + TotalLatency(s, vs)
    decreases |vs|
  {
    if vs == [] {
    } else {
      FoldCounts(s, vs[1..], Effect(s.units[vs[0]], p));
    }
  }

  /** `m` is the largest of `low` and the periods of the units `vs`. */
  predicate IsMaxPeriod(s: State, vs: seq<nat>, low: int, m: int)
    requires forall v <- vs :: v in s.units
  {
    && low <= m && (forall v <- vs :: s.units[v].unitProfile.period <= m)
    && (m == low || exists v <- vs :: s.units[v].unitProfile.period == m)
  }

  lemma {:induction false} FoldPeriod(s: State, vs: seq<nat>, p: Profile)
    requires forall v <- vs :: v in s.units
    requires 0 <= p.period
    ensures IsMaxPeriod(s, vs, p.period, Fold(s, vs, p).period)
    decreases |vs|
  {
    if vs == [] {
    } else {
      var q := Effect(s.units[vs[0]], p);
      FoldPeriod(s, vs[1..], q);
      assert vs == [vs[0]] + vs[1..];
    }
  }

  /** What a unit sets for all units behind it: the number of channels, the sample rate, the tempo. */
  datatype Setting = Channels | Rate | Tempo

  function Get(p: Profile, m: Setting): int {
    match m
    case Channels => p.channels
    case Rate => p.fs
    case Tempo => p.bpm
  }

  /** The k-th of the units `vs` is the last one that sets `m`; a unit that does not is at zero or below. */
  predicate SetsLast(s: State, vs: seq<nat>, m: Setting, k: nat)
    requires forall v <- vs :: v in s.units
  {
    && k < |vs| && Get(s.units[vs[k]].unitProfile, m) > 0
    && forall j :: k < j < |vs| ==> Get(s.units[vs[j]].unitProfile, m) <= 0
  }

  predicate NoneSets(s: State, vs: seq<nat>, m: Setting)
    requires forall v <- vs :: v in s.units
  {
    forall v <- vs :: Get(s.units[v].unitProfile, m) <= 0
  }

  /** `q` holds what the last of the units `vs` that sets it has set, and no smaller fill than any of them. */
  ghost predicate Reflects(s: State, vs: seq<nat>, q: Profile)
    requires forall v <- vs :: v in s.units
  {
    && (forall m: Setting, k: nat :: SetsLast(s, vs, m, k) ==> Get(q, m) == Get(s.units[vs[k]].unitProfile, m))
    && (forall v <- vs :: s.units[v].unitProfile.fill > 0 ==> s.units[v].unitProfile.fill <= q.fill)
  }

  /** Where none of them has set anything, or has a positive fill of that size, `q` holds what `p` held. */
  ghost predicate KeepsRest(s: State, vs: seq<nat>, p: Profile, q: Profile)
    requires forall v <- vs :: v in s.units
  {
    && (forall m: Setting :: NoneSets(s, vs, m) ==> Get(q, m) == Get(p, m))
    && p.fill <= q.fill
    && (q.fill == p.fill || (q.fill > 0 && exists v <- vs :: s.units[v].unitProfile.fill == q.fill))
  }

  /** One unit in front. */
  lemma SetsLastNext(s: State, vs: seq<nat>, m: Setting, k: nat)
    requires vs != [] && forall v <- vs :: v in s.units
    requires SetsLast(s, vs, m, k)
    ensures if k == 0 then NoneSets(s, vs[1..], m) else SetsLast(s, vs[1..], m, k - 1)
  {
    if k > 0 {
      forall j | k - 1 < j < |vs[1..]| ensures Get(s.units[vs[1..][j]].unitProfile, m) <= 0 {
        assert vs[1..][j] == vs[j + 1];
      }
    }
  }

  lemma EffectSets(unit: Unit, p: Profile, m: Setting)
    ensures var own := Get(unit.unitProfile, m); Get(Effect(unit, p), m) == if own > 0 then own else Get(p, m)
  {
  }

  lemma {:induction false} FoldSets(s: State, vs: seq<nat>, p: Profile, m: Setting)
    requires forall v <- vs :: v in s.units
    ensures forall k: nat :: SetsLast(s, vs, m, k) ==> Get(Fold(s, vs, p), m) == Get(s.units[vs[k]].unitProfile, m)
    ensures NoneSets(s, vs, m) ==> Get(Fold(s, vs, p), m) == Get(p, m)
    decreases |vs|
  {
    if vs == [] {
    } else {
      var q := Effect(s.units[vs[0]], p);
      EffectSets(s.units[vs[0]], p, m);
      FoldSets(s, vs[1..], q, m);
      forall k: nat | SetsLast(s, vs, m, k) ensures Get(Fold(s, vs, p), m) == Get(s.units[vs[k]].unitProfile, m) {
        SetsLastNext(s, vs, m, k);
      }
    }
  }

  lemma {:induction false} FoldFill(s: State, vs: seq<nat>, p: Profile)
    requires forall v <- vs :: v in s.units
    ensures var fill := Fold(s, vs, p).fill;
      && p.fill <= fill && (forall v <- vs :: s.units[v].unitProfile.fill > 0 ==> s.units[v].unitProfile.fill <= fill)
      && (fill == p.fill || (fill > 0 && exists v <- vs :: s.units[v].unitProfile.fill == fill))
    decreases |vs|
  {
    if vs == [] {
    } else {
      FoldFill(s, vs[1..], Effect(s.units[vs[0]], p));
      assert vs == [vs[0]] + vs[1..];
    }
  }

  /** What the fold makes of the settings and the fill. */
  lemma FoldReflects(s: State, vs: seq<nat>, p: Profile)
    requires forall v <- vs :: v in s.units
    ensures Reflects(s, vs, Fold(s, vs, p)) && KeepsRest(s, vs, p, Fold(s, vs, p))
  {
    forall m: Setting
      ensures forall k: nat :: SetsLast(s, vs, m, k) ==> Get(Fold(s, vs, p), m) == Get(s.units[vs[k]].unitProfile, m)
      ensures NoneSets(s, vs, m) ==> Get(Fold(s, vs, p), m) == Get(p, m)
    {
      FoldSets(s, vs, p, m);
    }
    FoldFill(s, vs, p);
  }

  predicate SomeFlushing(s: State, vs: seq<nat>)
    requires forall v <- vs :: v in s.units
  {
    exists v <- vs :: s.units[v].unitProfile.state == FLUSHING
  }

  lemma {:induction false} FoldState(s: State, vs: seq<nat>, p: Profile, d: nat)
    requires d in s.units && forall v <- vs :: v in s.units
    requires forall v <- vs :: s.units[v].kind.Dispatch? <==> v == d
    ensures Fold(s, vs, p).state ==
      if p.state == FLUSHING || SomeFlushing(s, vs) then FLUSHING
      else if d in vs then s.units[d].unitProfile.state
      else p.state
    decreases |vs|
  {
    if vs == [] {
    } else {
      var q := Effect(s.units[vs[0]], p);
      assert vs == [vs[0]] + vs[1..];
      FoldState(s, vs[1..], q, d);
      assert SomeFlushing(s, vs) <==> s.units[vs[0]].unitProfile.state == FLUSHING || SomeFlushing(s, vs[1..]);
    }
  }

  // Drift: the first unit with a drift sets it, every later one scales it away from or towards zero.

  function Drifts(s: State, vs: seq<nat>): (ds: seq<real>)
    requires forall v <- vs :: v in s.units
    ensures |ds| == |vs| && forall k :: 0 <= k < |vs| ==> ds[k] == s.units[vs[k]].unitProfile.drift
  {
    seq(|vs|, k requires 0 <= k < |vs| => s.units[vs[k]].unitProfile.drift)
  }

  function FoldDrift(ds: seq<real>, drift: real): real {
    if ds == [] then drift else FoldDrift(ds[1..], AddDrift(ds[0], drift))
  }

  lemma {:induction false} FoldsDrift(s: State, vs: seq<nat>, p: Profile)
    requires forall v <- vs :: v in s.units
    ensures Fold(s, vs, p).drift == FoldDrift(Drifts(s, vs), p.drift)
    decreases |vs|
  {
    if vs == [] {
    } else {
      FoldsDrift(s, vs[1..], Effect(s.units[vs[0]], p));
      assert Drifts(s, vs)[1..] == Drifts(s, vs[1..]);
    }
  }

  function Sign(x: real): real { if x > 0.0 then 1.0 else if x < 0.0 then -1.0 else 0.0 }

  /** The product of 1 + sign * d over `ds`. */
  function Scale(sign: real, ds: seq<real>): real {
    if ds == [] then 1.0 else (1.0 + sign * ds[0]) * Scale(sign, ds[1..])
  }

  predicate SmallDrifts(ds: seq<real>) { forall i :: 0 <= i < |ds| ==> -1.0 < ds[i] < 1.0 }

  lemma DriftStep(d: real, x: real)
    requires x != 0.0 && -1.0 < d < 1.0
    ensures AddDrift(d, x) == x * (1.0 + Sign(x) * d) && Sign(AddDrift(d, x)) == Sign(x) && AddDrift(d, x) != 0.0
  {
    if x > 0.0 {
      assert x * (1.0 + d) > 0.0;
    } else {
      var y := x * -1.0;
      assert y * (1.0 - d) > 0.0;
      assert AddDrift(d, x) == x + y * d == (y * (1.0 - d)) * -1.0;
    }
  }

  lemma TimesAssociates(x: real, y: real, z: real)
    ensures (x * y) * z == x * (y * z)
  {
  }

  lemma {:induction false} DriftScales(ds: seq<real>, x: real)
    requires x != 0.0 && SmallDrifts(ds)
    ensures FoldDrift(ds, x) == x * Scale(Sign(x), ds)
    decreases |ds|
  {
    if ds == [] {
      assert Scale(Sign(x), ds) == 1.0;
    } else {
      DriftStep(ds[0], x);
      DriftScales(ds[1..], AddDrift(ds[0], x));
      TimesAssociates(x, 1.0 + Sign(x) * ds[0], Scale(Sign(x), ds[1..]));
    }
  }

  /** From zero: the first non-zero drift, times 1 + s * d for every later drift d, where s is the
      sign of the first; `k` is the number of zeros in front. */
  lemma {:induction false} DriftClosedForm(ds: seq<real>, k: nat)
    requires SmallDrifts(ds) && k <= |ds|
    requires forall i :: 0 <= i < k ==> ds[i] == 0.0
    requires k < |ds| ==> ds[k] != 0.0
    ensures FoldDrift(ds, 0.0) == if k == |ds| then 0.0 else ds[k] * Scale(Sign(ds[k]), ds[k + 1..])
    decreases |ds|
  {
    if k > 0 {
      DriftClosedForm(ds[1..], k - 1);
      if k < |ds| {
        assert ds[1..][k - 1] == ds[k] && ds[1..][k..] == ds[k + 1..];
      }
    } else if ds != [] {
      DriftScales(ds[1..], ds[0]);
    }
  }

  /** Profiling a line from its mainline without flags (`profile_line`): one jump for every path, the
      latencies of the units the paths lead to, the largest period, the scaled drift, the channels, rate and
      tempo that the last unit has set which sets them, and the largest fill; no unit changes. */
  lemma LineProfileTotals(g: Graph, s: State, u: nat, p: Profile)
    requires Fits(g, s) && u in g.outs
    ensures var (s', p') := SyncLine(g, s, u, p, NONE, 0);
      && s' == s
      && p'.jumps == p.jumps + |Paths(g, u)|
      && p'.latency == p.latency + TotalLatency(s, Visits(g, u))
      && (0 <= p.period ==> IsMaxPeriod(s, Visits(g, u), p.period, p'.period))
      && p'.drift == FoldDrift(Drifts(s, Visits(g, u)), p.drift)
      && Reflects(s, Visits(g, u), p') && KeepsRest(s, Visits(g, u), p, p')
  {
    FoldReflects(s, Visits(g, u), p);
    LineWalk(g, s, u, p, 0);
    VisitsFollowPaths(g, u);
    FoldCounts(s, Visits(g, u), p);
    FoldsDrift(s, Visits(g, u), p);
    if 0 <= p.period {
      FoldPeriod(s, Visits(g, u), p);
    }
  }

  // ---------------------------------------------------------------------------------------------
  // Sync cycles
  // ---------------------------------------------------------------------------------------------

  predicate HasOutput(g: Graph, u: nat)
    requires u in g.outs
  {
    exists i: nat :: i < |g.outs[u]| && g.outs[u][i].connected
  }

  /** Every maximal path from `u` ends in the one dispatch unit `d`. */
  predicate EndsIn(g: Graph, s: State, u: nat, d: nat)
    requires Fits(g, s) && u in g.outs
  {
    && d in g.outs
    && (forall v <- Visits(g, u) :: s.units[v].kind.Dispatch? <==> v == d)
    && (forall v <- Visits(g, u) :: HasOutput(g, v) <==> v != d)
  }

  /** The connected outputs of a unit lead to units visited from it, together with all behind them. */
  lemma {:induction false} OutputIsVisited(g: Graph, u: nat, i: nat, j: nat)
    requires Acyclic(g) && u in g.outs && i <= j < |g.outs[u]| && g.outs[u][j].connected
    ensures forall v <- Visits(g, g.outs[u][j].to) :: v in Behind(g, u, i)
    ensures g.outs[u][j].to in Visits(g, g.outs[u][j].to) && g.outs[u][j].to in Behind(g, u, i)
    decreases j - i
  {
    assert Visits(g, g.outs[u][j].to)[0] == g.outs[u][j].to;
    if i == j {
    } else {
      OutputIsVisited(g, u, i + 1, j);
    }
  }

  /** What is visited behind `u` is visited from the unit behind some connected output. */
  lemma {:induction false} VisitedBehindOutput(g: Graph, u: nat, i: nat, v: nat) returns (j: nat)
    requires Acyclic(g) && u in g.outs && i <= |g.outs[u]| && v in Behind(g, u, i)
    ensures i <= j < |g.outs[u]| && g.outs[u][j].connected && v in Visits(g, g.outs[u][j].to)
    decreases |g.outs[u]| - i
  {
    if g.outs[u][i].connected && v in Visits(g, g.outs[u][i].to) {
      j := i;
    } else {
      j := VisitedBehindOutput(g, u, i + 1, v);
    }
  }

  /** Visits are transitive. */
  lemma {:induction false} VisitsNest(g: Graph, u: nat, v: nat)
    requires Acyclic(g) && u in g.outs && v in Visits(g, u)
    ensures v == u || v in Behind(g, u, 0)
    ensures forall w <- Behind(g, v, 0) :: w in Behind(g, u, 0)
    decreases g.rank[u]
  {
    if v == u {
    } else {
      var j := VisitedBehindOutput(g, u, 0, v);
      VisitsNest(g, g.outs[u][j].to, v);
      OutputIsVisited(g, u, 0, j);
    }
  }

  lemma OutputEndsIn(g: Graph, s: State, u: nat, i: nat, d: nat)
    requires Fits(g, s) && u in g.outs && EndsIn(g, s, u, d) && i < |g.outs[u]| && g.outs[u][i].connected
    ensures EndsIn(g, s, g.outs[u][i].to, d)
  {
    OutputIsVisited(g, u, 0, i);
  }

  lemma {:induction false} DispatchIsVisited(g: Graph, s: State, u: nat, d: nat)
    requires Fits(g, s) && u in g.outs && EndsIn(g, s, u, d)
    ensures u != d ==> d in Behind(g, u, 0)
    ensures forall v <- Visits(g, u) :: EndsIn(g, s, v, d)
    decreases g.rank[u]
  {
    forall v <- Visits(g, u) ensures EndsIn(g, s, v, d) {
      VisitsNest(g, u, v);
    }
    if u == d {
    } else {
      assert u == Visits(g, u)[0];
      var i: nat :| i < |g.outs[u]| && g.outs[u][i].connected;
      OutputIsVisited(g, u, 0, i);
      DispatchIsVisited(g, s, g.outs[u][i].to, d);
    }
  }

  /** The line profile of `v` after a sync cycle: the largest downstream period, the dispatch's state
      unless a downstream unit is flushing, the drift of the walk, and what the units downstream have set. */
  ghost predicate LineSynced(g: Graph, s: State, v: nat, d: nat)
    requires Fits(g, s) && v in g.outs && d in g.outs
  {
    var line := s.units[v].lineProfile;
    var below := Behind(g, v, 0);
    && IsMaxPeriod(s, below, 0, line.period)
    && line.state == (if SomeFlushing(s, below) then FLUSHING else s.units[d].unitProfile.state)
    && line.drift == FoldDrift(Drifts(s, below), 0.0)
    && Reflects(s, below, line)
  }

  /** Nothing but line profiles differs. */
  predicate OnlyLines(s: State, s': State) {
    && s' == s.(units := s'.units) && s'.units.Keys == s.units.Keys
    && forall u <- s.units :: s'.units[u] == s.units[u].(lineProfile := s'.units[u].lineProfile)
  }

  lemma {:induction false} SourceWalk(g: Graph, s: State, u: nat, p: Profile)
    requires Fits(g, s) && u in g.outs
    ensures SyncLine(g, s, u, p, SOURCE, 0) == (s, Fold(s, Behind(g, u, 0),
      if s.units[u].kind.Dispatch? && p.state != FLUSHING then p.(state := s.units[u].unitProfile.state) else p))
  {
    var q := if s.units[u].kind.Dispatch? && p.state != FLUSHING then p.(state := s.units[u].unitProfile.state) else p;
    assert SOURCE.(source := false) == NONE;
    LineWalkBehind(g, s, u, 0, q);
  }

  /** The profile a unit's own line walk starts from. */
  function LineStart(s: State, u: nat): Profile
    requires u in s.units
  {
    var p := Restart(s.units[u].lineProfile);
    if s.units[u].kind.Dispatch? then p.(state := s.units[u].unitProfile.state) else p
  }

  lemma ProfileLineFolds(g: Graph, s: State, u: nat)
    requires Fits(g, s) && u in g.outs
    ensures ProfileLine(g, s, u) ==
      Put(s, u, s.units[u].(lineProfile := Fold(s, Behind(g, u, 0), LineStart(s, u))))
  {
    SourceWalk(g, s, u, Restart(s.units[u].lineProfile));
  }

  lemma LineFoldSyncs(g: Graph, s: State, u: nat, d: nat)
    requires Fits(g, s) && u in g.outs && EndsIn(g, s, u, d)
    ensures var below := Behind(g, u, 0); var line := Fold(s, below, LineStart(s, u));
      && IsMaxPeriod(s, below, 0, line.period)
      && line.state == (if SomeFlushing(s, below) then FLUSHING else s.units[d].unitProfile.state)
      && line.drift == FoldDrift(Drifts(s, below), 0.0)
      && Reflects(s, below, line)
  {
    FoldReflects(s, Behind(g, u, 0), LineStart(s, u));
    var below, q := Behind(g, u, 0), LineStart(s, u);
    assert u == Visits(g, u)[0] && forall v <- below :: v in Visits(g, u);
    FoldPeriod(s, below, q);
    FoldsDrift(s, below, q);
    if u == d {
      NothingBehind(g, u, 0);
    } else {
      DispatchIsVisited(g, s, u, d);
      FoldState(s, below, q, d);
    }
  }

  /** A line profile that fits what is behind a unit still fits it once it is stored. */
  lemma SyncsLine(g: Graph, s: State, u: nat, line: Profile, d: nat)
    requires Fits(g, s) && u in g.outs && d in g.outs
    requires IsMaxPeriod(s, Behind(g, u, 0), 0, line.period) && line.drift == FoldDrift(Drifts(s, Behind(g, u, 0)), 0.0)
    requires line.state == if SomeFlushing(s, Behind(g, u, 0)) then FLUSHING else s.units[d].unitProfile.state
    requires Reflects(s, Behind(g, u, 0), line)
    ensures var s' := Put(s, u, s.units[u].(lineProfile := line));
      Fits(g, s') && OnlyLines(s, s') && LineSynced(g, s', u, d)
  {
    SameUnits(g, s, Put(s, u, s.units[u].(lineProfile := line)), Behind(g, u, 0));
  }

  lemma ProfileLineSyncs(g: Graph, s: State, u: nat, d: nat)
    requires Fits(g, s) && u in g.outs && EndsIn(g, s, u, d)
    ensures var s' := ProfileLine(g, s, u); OnlyLines(s, s') && LineSynced(g, s', u, d)
    ensures forall v <- g.outs :: v != u ==> ProfileLine(g, s, u).units[v] == s.units[v]
  {
    ProfileLineFolds(g, s, u);
    LineFoldSyncs(g, s, u, d);
    SyncsLine(g, s, u, Fold(s, Behind(g, u, 0), LineStart(s, u)), d);
  }

  lemma {:induction false} NothingBehind(g: Graph, u: nat, i: nat)
    requires Acyclic(g) && u in g.outs && i <= |g.outs[u]| && !HasOutput(g, u)
    ensures Behind(g, u, i) == []
    decreases |g.outs[u]| - i
  {
    if i == |g.outs[u]| {
    } else {
      NothingBehind(g, u, i + 1);
    }
  }

  /** What is derived from unit profiles does not depend on line profiles. */
  lemma SameUnits(g: Graph, s: State, s': State, vs: seq<nat>)
    requires forall v <- vs :: v in s.units && v in s'.units
    requires forall v <- vs :: s'.units[v].unitProfile == s.units[v].unitProfile
    ensures Drifts(s', vs) == Drifts(s, vs)
    ensures SomeFlushing(s', vs) == SomeFlushing(s, vs)
    ensures forall low, m :: IsMaxPeriod(s', vs, low, m) <==> IsMaxPeriod(s, vs, low, m)
    ensures forall q :: Reflects(s, vs, q) ==> Reflects(s', vs, q)
  {
    forall q | Reflects(s, vs, q) ensures Reflects(s', vs, q) {
      SameReflected(s, s', vs, q);
    }
  }

  lemma SameReflected(s: State, s': State, vs: seq<nat>, q: Profile)
    requires (forall v <- vs :: v in s.units) && Reflects(s, vs, q)
    requires forall v <- vs :: v in s'.units && s'.units[v].unitProfile == s.units[v].unitProfile
    ensures Reflects(s', vs, q)
  {
    forall m: Setting, k: nat | SetsLast(s', vs, m, k) ensures Get(q, m) == Get(s'.units[vs[k]].unitProfile, m) {
      assert SetsLast(s, vs, m, k);
    }
  }

  lemma StaysSynced(g: Graph, s: State, s': State, v: nat, d: nat)
    requires Fits(g, s) && Fits(g, s') && OnlyLines(s, s') && v in g.outs && d in g.outs && LineSynced(g, s, v, d)
    requires s'.units[v].lineProfile == s.units[v].lineProfile
    ensures LineSynced(g, s', v, d)
  {
    SameUnits(g, s, s', Behind(g, v, 0));
  }

  lemma StillEndsIn(g: Graph, s: State, s': State, u: nat, d: nat)
    requires Fits(g, s) && Fits(g, s') && OnlyLines(s, s') && u in g.outs && EndsIn(g, s, u, d)
    ensures EndsIn(g, s', u, d)
  {
    forall v <- Visits(g, u) ensures s'.units[v].kind == s.units[v].kind {}
  }

  /** After a sync cycle every unit reached has its line profile synced, and synced ones stay so. */
  lemma {:induction false} CycleLineSyncs(g: Graph, s: State, u: nat, d: nat)
    requires Fits(g, s) && u in g.outs && EndsIn(g, s, u, d)
    ensures var s' := CycleLine(g, s, u);
      && OnlyLines(s, s')
      && (forall v <- Visits(g, u) :: LineSynced(g, s', v, d))
      && (forall v <- g.outs :: LineSynced(g, s, v, d) ==> LineSynced(g, s', v, d))
    decreases g.rank[u], 1
  {
    var s1 := ProfileLine(g, s, u);
    ProfileLineSyncs(g, s, u, d);
    forall v <- g.outs | LineSynced(g, s, v, d) ensures LineSynced(g, s1, v, d) {
      if v != u { StaysSynced(g, s, s1, v, d); }
    }
    StillEndsIn(g, s, s1, u, d);
    CycleOutputsSync(g, s1, u, 0, d);
  }

  lemma {:induction false} CycleOutputsSync(g: Graph, s: State, u: nat, i: nat, d: nat)
    requires Fits(g, s) && u in g.outs && i <= |g.outs[u]| && EndsIn(g, s, u, d)
    ensures var s' := CycleOutputs(g, s, u, i);
      && OnlyLines(s, s')
      && (forall v <- Behind(g, u, i) :: LineSynced(g, s', v, d))
      && (forall v <- g.outs :: LineSynced(g, s, v, d) ==> LineSynced(g, s', v, d))
    decreases g.rank[u], 0, |g.outs[u]| - i
  {
    if i == |g.outs[u]| {
    } else {
      if g.outs[u][i].connected {
        var to := g.outs[u][i].to;
        OutputEndsIn(g, s, u, i, d);
        CycleLineSyncs(g, s, to, d);
        var s1 := CycleLine(g, s, to);
        StillEndsIn(g, s, s1, u, d);
        CycleOutputsSync(g, s1, u, i + 1, d);
      } else {
        CycleOutputsSync(g, s, u, i + 1, d);
      }
    }
  }

  predicate AllEndIn(g: Graph, s: State, ms: seq<nat>, d: nat)
    requires Fits(g, s) && MainlinesFit(g, ms)
  {
    forall m <- ms :: EndsIn(g, s, m, d)
  }

  /** The backend's sync cycle over all mainlines. */
  lemma {:induction false} CycleSyncs(g: Graph, s: State, ms: seq<nat>, d: nat)
    requires Fits(g, s) && MainlinesFit(g, ms) && AllEndIn(g, s, ms, d) && d in g.outs
    ensures var s' := Cycle(g, s, ms);
      && OnlyLines(s, s')
      && (forall m <- ms, v <- Visits(g, m) :: LineSynced(g, s', v, d))
      && (forall v <- g.outs :: LineSynced(g, s, v, d) ==> LineSynced(g, s', v, d))
    decreases |ms|
  {
    if ms == [] {
    } else {
      CycleLineSyncs(g, s, ms[0], d);
      var s1 := CycleLine(g, s, ms[0]);
      forall m <- ms[1..] ensures EndsIn(g, s1, m, d) {
        StillEndsIn(g, s, s1, m, d);
      }
      CycleSyncs(g, s1, ms[1..], d);
      forall m <- ms, v <- Visits(g, m) ensures LineSynced(g, Cycle(g, s, ms), v, d) {
        assert m == ms[0] || m in ms[1..];
      }
    }
  }

  /** `cycle_line` for an AC cycle leaves a unit's `cycle()` out when its line is flushing. */
  predicate SkipsAcCycle(unit: Unit) { unit.lineProfile.state == FLUSHING }

  lemma FlushingHasPath(g: Graph, s: State, v: nat) returns (path: seq<nat>)
    requires Fits(g, s) && v in g.outs && SomeFlushing(s, Behind(g, v, 0))
    ensures IsPath(g, v, path) && path != [] && s.units[End(g, v, path)].unitProfile.state == FLUSHING
  {
    BehindFollowsPaths(g, v, 0);
    var k: nat :| k < |Behind(g, v, 0)| && s.units[Behind(g, v, 0)[k]].unitProfile.state == FLUSHING;
    path := PathsFrom(g, v, 0)[k];
  }

  lemma PathIsBehind(g: Graph, v: nat, path: seq<nat>)
    requires Acyclic(g) && v in g.outs && IsPath(g, v, path) && path != []
    ensures End(g, v, path) in Behind(g, v, 0)
  {
    BehindFollowsPaths(g, v, 0);
    PathsFromAreComplete(g, v, 0);
    assert path in PathsFrom(g, v, 0);
    var k: nat :| k < |PathsFrom(g, v, 0)| && PathsFrom(g, v, 0)[k] == path;
    assert Behind(g, v, 0)[k] == End(g, v, path);
  }

  /** A unit visited behind `v` is the end of a path of at least one step, and the other way round. */
  lemma FlushingByPaths(g: Graph, s: State, v: nat)
    requires Fits(g, s) && v in g.outs
    ensures SomeFlushing(s, Behind(g, v, 0)) <==>
      exists path :: IsPath(g, v, path) && path != [] && s.units[End(g, v, path)].unitProfile.state == FLUSHING
  {
    if SomeFlushing(s, Behind(g, v, 0)) {
      var path := FlushingHasPath(g, s, v);
    }
    forall path | IsPath(g, v, path) && path != [] && s.units[End(g, v, path)].unitProfile.state == FLUSHING
      ensures SomeFlushing(s, Behind(g, v, 0))
    {
      PathIsBehind(g, v, path);
    }
  }

  /** A synced unit is left out of AC cycles exactly when a unit strictly downstream of it is flushing, or it
      is itself the dispatch unit and flushing. */
  lemma SyncedSkips(g: Graph, s: State, m: nat, v: nat, d: nat)
    requires Fits(g, s) && m in g.outs && EndsIn(g, s, m, d) && v in Visits(g, m) && LineSynced(g, s, v, d)
    ensures SkipsAcCycle(s.units[v]) <==>
      (v == d && s.units[d].unitProfile.state == FLUSHING) ||
      exists path :: IsPath(g, v, path) && path != [] && s.units[End(g, v, path)].unitProfile.state == FLUSHING
  {
    DispatchIsVisited(g, s, m, d);
    DispatchIsVisited(g, s, v, d);
    FlushingByPaths(g, s, v);
  }

  /** So it is with every unit visited after a sync cycle. */
  lemma SkipsExactlyWhenFlushing(g: Graph, s: State, ms: seq<nat>, d: nat, m: nat, v: nat)
    requires Fits(g, s) && MainlinesFit(g, ms) && AllEndIn(g, s, ms, d) && d in g.outs
    requires m in ms && v in Visits(g, m)
    ensures SkipsAcCycle(Cycle(g, s, ms).units[v]) <==>
      (v == d && s.units[d].unitProfile.state == FLUSHING) ||
      exists path :: IsPath(g, v, path) && path != [] && s.units[End(g, v, path)].unitProfile.state == FLUSHING
  {
    CycleSyncs(g, s, ms, d);
    var s' := Cycle(g, s, ms);
    SameUnits(g, s, s', Behind(g, v, 0));
    StillEndsIn(g, s, s', m, d);
    SyncedSkips(g, s', m, v, d);
    FlushingByPaths(g, s, v);
    FlushingByPaths(g, s', v);
  }
}
