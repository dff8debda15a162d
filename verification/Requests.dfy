/** Step units that have asked for an upstream sync themselves: in the next one they hand down their own state
    instead of the one that reaches them. */
module Requests {
  import opened Activation
  import opened LineProfiles
  import opened SyncCycles
  import opened UnitSync

  predicate NoMainline(s: State, vs: seq<nat>)
    requires forall v <- vs :: v in s.units
  {
    forall v <- vs :: !s.units[v].kind.Mainline?
  }

  // ---------------------------------------------------------------------------------------------
  // Below the mainlines an upstream sync comes back with the profile it went down with
  // ---------------------------------------------------------------------------------------------

  lemma {:induction false} WalkReturns(g: Graph, s: State, u: nat, p: Profile, line: nat)
    requires Fits(g, s) && u in g.outs && NoMainline(s, Visits(g, u))
    ensures SyncLine(g, s, u, p, UPSTREAM, line).1 == p
    decreases g.rank[u], 2
  {
    assert u == Visits(g, u)[0];
    var unit := s.units[u];
    if unit.kind.Combine? {
      var told := SetInput(unit, line, p.state == ACTIVE);
      WrittenReturns(g, s, u, SetState(told, if p.state == ACTIVE then ACTIVE else INACTIVE), p);
    } else if unit.kind.Dispatch? {
    } else if !unit.upstream {
      WrittenReturns(g, s, u, unit.(unitProfile := unit.unitProfile.(state := p.state)), p);
    }
  }

  lemma {:induction false} WrittenReturns(g: Graph, s: State, u: nat, unit': Unit, p: Profile)
    requires Fits(g, s) && u in g.outs && NoMainline(s, Visits(g, u)) && Rewrites(s.units[u], unit')
    ensures ContinueSync(g, Put(s, u, unit'), u, 0, p, UPSTREAM).1 == p
    decreases g.rank[u], 1
  {
    PutKeeps(g, s, u, unit');
    assert forall v <- Behind(g, u, 0) :: v in Visits(g, u);
    BehindReturns(g, Put(s, u, unit'), u, 0, p);
  }

  lemma {:induction false} BehindReturns(g: Graph, s: State, u: nat, i: nat, p: Profile)
    requires Fits(g, s) && u in g.outs && i <= |g.outs[u]| && NoMainline(s, Behind(g, u, i))
    ensures ContinueSync(g, s, u, i, p, UPSTREAM).1 == p
    decreases g.rank[u], 0, |g.outs[u]| - i
  {
    if i == |g.outs[u]| {
    } else {
      if g.outs[u][i].connected {
        var to := g.outs[u][i].to;
        assert forall v <- Visits(g, to) :: v in Behind(g, u, i);
        assert forall v <- Behind(g, u, i + 1) :: v in Behind(g, u, i);
        WalkReturns(g, s, to, p, g.outs[u][i].input);
        WalkKeeps(g, s, to, p, UPSTREAM, g.outs[u][i].input);
        BehindReturns(g, SyncLine(g, s, to, p, UPSTREAM, g.outs[u][i].input).0, u, i + 1, p);
      } else {
        BehindReturns(g, s, u, i + 1, p);
      }
    }
  }

  /** No unit is behind itself. */
  lemma {:induction false} BehindIsLower(g: Graph, u: nat, i: nat)
    requires Acyclic(g) && u in g.outs && i <= |g.outs[u]|
    ensures forall v <- Behind(g, u, i) :: g.rank[v] < g.rank[u]
    decreases g.rank[u], |g.outs[u]| - i
  {
    if i == |g.outs[u]| {
    } else {
      if g.outs[u][i].connected {
        BehindIsLower(g, g.outs[u][i].to, 0);
      }
      BehindIsLower(g, u, i + 1);
    }
  }

  /** A unit with a request forgets it and hands down its own profile, which stays; the caller's comes back. */
  lemma RequestWalk(g: Graph, s: State, u: nat, p: Profile, line: nat)
    requires Fits(g, s) && u in g.outs && NoMainline(s, Visits(g, u))
    requires s.units[u].upstream && (s.units[u].kind.Step? || s.units[u].kind.Split?)
    ensures var s1 := Put(s, u, s.units[u].(upstream := false));
      SyncLine(g, s, u, p, UPSTREAM, line) == (ContinueSync(g, s1, u, 0, s.units[u].unitProfile, UPSTREAM).0, p)
  {
    var unit := s.units[u];
    var s1 := Put(s, u, unit.(upstream := false));
    var (s2, own) := ContinueSync(g, s1, u, 0, unit.unitProfile, UPSTREAM);
    WrittenReturns(g, s, u, unit.(upstream := false), unit.unitProfile);
    BehindKeeps(g, s1, u, 0, unit.unitProfile, UPSTREAM);
    BehindIsLower(g, u, 0);
    assert s2.units[u] == s1.units[u];
    assert Put(s2, u, s2.units[u].(unitProfile := own)) == s2;
  }

  // ---------------------------------------------------------------------------------------------
  // Chains with requests
  // ---------------------------------------------------------------------------------------------

  /** The units of `path` are joined by their only outputs, end in input `input` of `to`, and all but the first
      are step units, with or without a request. */
  ghost predicate Joined(g: Graph, s: State, path: seq<nat>, to: nat, input: nat)
    requires Fits(g, s)
    decreases |path|
  {
    && path != [] && path[0] in g.outs && to in g.outs
    && if |path| == 1 then SingleOutput(g, path[0], Link(true, to, input))
       else
         && path[1] in g.outs && s.units[path[1]].kind.Step?
         && (exists i: nat :: SingleOutput(g, path[0], Link(true, path[1], i)))
         && Joined(g, s, path[1..], to, input)
  }

  /** The last unit on the path, not counting the first, that has asked for an upstream sync. */
  predicate LastRequest(s: State, path: seq<nat>, k: nat)
    requires forall u <- path :: u in s.units
  {
    && 0 < k < |path| && s.units[path[k]].upstream
    && forall j :: k < j < |path| ==> !s.units[path[j]].upstream
  }

  /** The state that comes out of the path is that of the last unit with a request, or the one that went in. */
  ghost predicate ComesOut(s: State, path: seq<nat>, state: int, out: int)
    requires forall u <- path :: u in s.units
  {
    && (forall k: nat :: LastRequest(s, path, k) ==> out == s.units[path[k]].unitProfile.state)
    && ((forall k :: 0 < k < |path| ==> !s.units[path[k]].upstream) ==> out == state)
  }

  lemma {:induction false} PathIsLower(g: Graph, s: State, path: seq<nat>, to: nat, input: nat)
    requires Fits(g, s) && Joined(g, s, path, to, input)
    ensures forall u <- path :: u in g.outs
    ensures forall u <- path[1..] :: s.units[u].kind.Step? && g.rank[u] < g.rank[path[0]]
    ensures NoMainline(s, Visits(g, to)) ==> NoMainline(s, Behind(g, path[0], 0))
    decreases |path|
  {
    if |path| == 1 {
      SingleOutputVisits(g, s, path[0], Link(true, to, input), 0);
    } else {
      var i: nat :| SingleOutput(g, path[0], Link(true, path[1], i));
      SingleOutputVisits(g, s, path[0], Link(true, path[1], i), 0);
      PathIsLower(g, s, path[1..], to, input);
      assert path[1..] == [path[1]] + path[1..][1..];
    }
  }

  lemma {:induction false} StillJoined(g: Graph, s: State, s': State, path: seq<nat>, to: nat, input: nat)
    requires Fits(g, s) && Fits(g, s') && Joined(g, s, path, to, input)
    requires forall u <- s.units :: s'.units[u].kind == s.units[u].kind
    ensures Joined(g, s', path, to, input)
    decreases |path|
  {
    if |path| == 1 {
    } else {
      StillJoined(g, s, s', path[1..], to, input);
    }
  }

  /** What an upstream walk makes of the units on the path: one with a request only forgets it, another one
      takes the state that reaches it. */
  ghost predicate Handed(s: State, s': State, path: seq<nat>, state: int)
    requires path != [] && forall u <- path :: u in s.units
  {
    && s' == s.(units := s'.units) && s'.units.Keys == s.units.Keys
    && (forall u <- s.units :: u !in path[1..] ==> s'.units[u] == s.units[u])
    && forall k: nat :: 0 < k < |path| ==> HandedAt(s, s', path, state, k)
  }

  ghost predicate HandedAt(s: State, s': State, path: seq<nat>, state: int, k: nat)
    requires (forall u <- path :: u in s.units) && s'.units.Keys == s.units.Keys && 0 < k < |path|
  {
    var before, after := s.units[path[k]], s'.units[path[k]];
    if before.upstream then after == before.(upstream := false)
    else
      && after == SetState(before, after.unitProfile.state)
      && ComesOut(s, path[..k + 1], state, after.unitProfile.state)
  }

  /** The state that goes into the rest of a path. */
  function Onward(s: State, path: seq<nat>, state: int): int
    requires |path| > 1 && path[1] in s.units
  {
    if s.units[path[1]].upstream then s.units[path[1]].unitProfile.state else state
  }

  /** What comes out of the rest of a path comes out of the path. */
  lemma ComesOutNext(s: State, s2: State, path: seq<nat>, state: int, out: int)
    requires |path| > 1 && (forall u <- path :: u in s.units && u in s2.units)
    requires forall k :: 1 < k < |path| ==> s2.units[path[k]] == s.units[path[k]]
    requires ComesOut(s2, path[1..], Onward(s, path, state), out)
    ensures ComesOut(s, path, state, out)
  {
    var rest := path[1..];
    assert forall k :: 0 < k < |rest| ==> rest[k] == path[k + 1];
    forall k: nat | LastRequest(s, path, k) ensures out == s.units[path[k]].unitProfile.state {
      if k > 1 { assert LastRequest(s2, rest, k - 1); }
    }
  }

  function AfterStep(unit: Unit, state: int): Unit {
    if unit.upstream then unit.(upstream := false) else SetState(unit, state)
  }

  /** The first step along a path. */
  lemma EntersNext(g: Graph, s: State, path: seq<nat>, to: nat, input: nat, p: Profile)
    requires Fits(g, s) && Joined(g, s, path, to, input) && NoMainline(s, Visits(g, to)) && |path| > 1
    ensures var u := path[1]; var s2 := Put(s, u, AfterStep(s.units[u], p.state));
      && Fits(g, s2) && Joined(g, s2, path[1..], to, input)
      && ContinueSync(g, s, path[0], 0, p, UPSTREAM).0 ==
         ContinueSync(g, s2, u, 0, if s.units[u].upstream then s.units[u].unitProfile else p, UPSTREAM).0
  {
    var i: nat :| SingleOutput(g, path[0], Link(true, path[1], i));
    var u := path[1];
    SingleOutputWalk(g, s, path[0], Link(true, u, i), 0, p, UPSTREAM);
    PathIsLower(g, s, path[1..], to, input);
    if s.units[u].upstream { RequestWalk(g, s, u, p, i); }
    StillJoined(g, s, Put(s, u, AfterStep(s.units[u], p.state)), path[1..], to, input);
  }

  /** An upstream walk along such a path enters `to` with the state of the last unit that has asked. */
  lemma {:induction false} ChainHandsDown(g: Graph, s: State, path: seq<nat>, to: nat, input: nat, p: Profile)
    returns (s1: State, q: Profile)
    requires Fits(g, s) && Joined(g, s, path, to, input) && NoMainline(s, Visits(g, to))
    requires forall u <- path :: u in s.units
    ensures Fits(g, s1) && ComesOut(s, path, p.state, q.state) && Handed(s, s1, path, p.state)
    ensures ContinueSync(g, s, path[0], 0, p, UPSTREAM).0 == SyncLine(g, s1, to, q, UPSTREAM, input).0
    decreases |path|
  {
    if |path| == 1 {
      s1, q := s, p;
      SingleOutputWalk(g, s, path[0], Link(true, to, input), 0, p, UPSTREAM);
    } else {
      var unit := s.units[path[1]];
      var s2 := Put(s, path[1], AfterStep(unit, p.state));
      EntersNext(g, s, path, to, input, p);
      PathIsLower(g, s, path[1..], to, input);
      s1, q := ChainHandsDown(g, s2, path[1..], to, input, if unit.upstream then unit.unitProfile else p);
      HandedNext(g, s, s2, s1, path, p.state);
      ComesOutNext(s, s2, path, p.state, q.state);
    }
  }

  lemma HandedNext(g: Graph, s: State, s2: State, s1: State, path: seq<nat>, state: int)
    requires Fits(g, s) && |path| > 1 && forall u <- path :: u in s.units
    requires path[1] !in path[2..]
    requires s2 == Put(s, path[1], AfterStep(s.units[path[1]], state))
    requires Handed(s2, s1, path[1..], Onward(s, path, state))
    ensures Handed(s, s1, path, state)
  {
    var rest := path[1..];
    assert rest[1..] == path[2..] && rest == [path[1]] + path[2..];
    forall k: nat | 0 < k < |path| ensures HandedAt(s, s1, path, state, k) {
      if k == 1 {
        assert path[..2] == [path[0], path[1]];
      } else {
        assert rest[k - 1] == path[k] && path[k] in path[2..] && HandedAt(s2, s1, rest, Onward(s, path, state), k - 1);
        assert rest[..k] == path[..k + 1][1..];
        if !s.units[path[k]].upstream {
          ComesOutNext(s, s2, path[..k + 1], state, s1.units[path[k]].unitProfile.state);
        }
      }
    }
  }

  lemma {:induction false} PathIsDistinct(g: Graph, s: State, path: seq<nat>, to: nat, input: nat, k: nat)
    requires Fits(g, s) && Joined(g, s, path, to, input) && k < |path|
    ensures forall j :: k < j < |path| ==> path[j] != path[k]
    decreases k
  {
    if k == 0 {
      PathIsLower(g, s, path, to, input);
      assert forall j :: 0 < j < |path| ==> path[j] == path[1..][j - 1];
    } else {
      PathIsDistinct(g, s, path[1..], to, input, k - 1);
    }
  }

  /** A step unit that asks for an upstream sync has its own state handed down to what is behind it, whatever
      state reaches it, unless a unit further down has asked too; the next sync forgets the request. */
  lemma TriggeredHandsDown(g: Graph, s: State, path: seq<nat>, k: nat, to: nat, input: nat, p: Profile)
    returns (s1: State, q: Profile)
    requires Fits(g, s) && Joined(g, s, path, to, input) && NoMainline(s, Visits(g, to))
    requires forall u <- path :: u in s.units
    requires 0 < k < |path| && forall j :: k < j < |path| ==> !s.units[path[j]].upstream
    ensures Fits(g, UnitTriggerSync(s, path[k], UPSTREAM)) && Fits(g, s1) && path[k] in s1.units
    ensures var t := UnitTriggerSync(s, path[k], UPSTREAM);
      ContinueSync(g, t, path[0], 0, p, UPSTREAM).0 == SyncLine(g, s1, to, q, UPSTREAM, input).0
    ensures q.state == s.units[path[k]].unitProfile.state
    ensures s1.units[path[k]] == s.units[path[k]].(upstream := false)
  {
    var t := UnitTriggerSync(s, path[k], UPSTREAM);
    PathIsDistinct(g, s, path, to, input, k);
    StillJoined(g, s, t, path, to, input);
    assert NoMainline(t, Visits(g, to));
    s1, q := ChainHandsDown(g, t, path, to, input, p);
    assert LastRequest(t, path, k);
    assert HandedAt(t, s1, path, p.state, k);
  }
}
