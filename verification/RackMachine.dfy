/** The rack and its units as the source runs them: fields that are overwritten, and loops over outputs
    and mainlines. Every method is proved to do what the function of the same name in UnitSync says. */
module RackMachine {
  import opened UnitSync

  class Rack {
    const graph: Graph
    const mainlines: seq<nat>
    var units: map<nat, Unit>
    var global: Profile
    var resync: bool
    var flags: Flags
    var cycles: int

    ghost function Now(): State
      reads this
    {
      State(units, global, resync, flags, cycles)
    }

    ghost predicate Valid()
      reads this
    {
      Fits(graph, Now()) && MainlinesFit(graph, mainlines)
    }

    constructor (graph: Graph, mainlines: seq<nat>, units: map<nat, Unit>, global: Profile)
      requires Acyclic(graph) && units.Keys == graph.outs.Keys && MainlinesFit(graph, mainlines)
      ensures Valid() && this.graph == graph && this.mainlines == mainlines
      ensures Now() == State(units, global, false, NONE, 0)
    {
      this.graph, this.mainlines, this.units, this.global := graph, mainlines, units, global;
      this.resync, this.flags, this.cycles := false, NONE, 0;
    }

    method TriggerSync(f: Flags)
      requires Valid()
      modifies this
      ensures Valid() && Now() == RackTriggerSync(old(Now()), f)
    {
      flags := Flags(flags.source || f.source, flags.duration || f.duration, flags.glob || f.glob,
                     flags.upstream || f.upstream, flags.downstream || f.downstream);
      resync := true;
    }

    method SyncLine(u: nat, profile: Profile, f: Flags, line: nat) returns (p: Profile)
      requires Valid() && u in graph.outs
      modifies this
      ensures Valid() && (Now(), p) == UnitSync.SyncLine(graph, old(Now()), u, profile, f, line)
      decreases graph.rank[u], 3
    {
      p := profile;
      match units[u].kind {
        case Mainline =>
          if f.upstream {
            units := units[u := units[u].(upstream := false)];
            p := p.(state := units[u].unitProfile.state);
            p := ContinueSync(u, p, f);
          } else {
            p := UnitSyncLine(u, p, f);
          }
        case Combine =>
          if f.upstream {
            p := CombineUpstream(u, p, f, line);
          } else {
            p := UnitSyncLine(u, p, f);
          }
        case Dispatch =>
          if f.upstream {
            if p.state != units[u].globalProfile.state {
              units := units[u := SetState(units[u], p.state)];
              TriggerSync(GLOB);
              if p.state == ACTIVE {
                cycles := cycles + 1;
              }
            }
          } else {
            if p.state != FLUSHING {
              p := p.(state := units[u].unitProfile.state);
            }
            if f.glob {
              p := p.(period := units[u].unitProfile.period);
            }
            p := UnitSyncLine(u, p, f);
          }
        case _ =>
          p := UnitSyncLine(u, p, f);
      }
    }

    method CombineUpstream(u: nat, profile: Profile, f: Flags, line: nat) returns (p: Profile)
      requires Valid() && u in graph.outs
      modifies this
      ensures Valid() && (Now(), p) == UnitSync.CombineUpstream(graph, old(Now()), u, profile, f, line)
      decreases graph.rank[u], 2
    {
      p := profile;
      if p.state == ACTIVE {
        units := units[u := SetInput(units[u], line, true)];
        if units[u].globalProfile.state == INACTIVE {
          units := units[u := SetState(units[u], ACTIVE)];
          assert units == old(units)[u := units[u]];
          p := ContinueSync(u, p, f);
        }
      } else {
        units := units[u := SetInput(units[u], line, false)];
        if units[u].globalProfile.state == ACTIVE {
          var quiet := AllInactiveLoop(units[u].inputs);
          if !quiet {
            return;
          }
          units := units[u := SetState(units[u], INACTIVE)];
          assert units == old(units)[u := units[u]];
          p := ContinueSync(u, p, f);
        }
      }
    }

    /** `all_inactive`. */
    method AllInactiveLoop(inputs: seq<bool>) returns (r: bool)
      ensures r <==> forall i :: 0 <= i < |inputs| ==> !inputs[i]
    {
      for i := 0 to |inputs|
        invariant forall k :: 0 <= k < i ==> !inputs[k]
      {
        if inputs[i] {
          return false;
        }
      }
      return true;
    }

    method UnitSyncLine(u: nat, profile: Profile, f: Flags) returns (p: Profile)
      requires Valid() && u in graph.outs
      modifies this
      ensures Valid() && (Now(), p) == UnitSync.UnitSyncLine(graph, old(Now()), u, profile, f)
      decreases graph.rank[u], 2
    {
      p := profile;
      if f.glob {
        p := Unflushed(Apply(units[u].unitProfile, p));
        p := ContinueSync(u, p, f);
        units := units[u := units[u].(globalProfile := StoreGlobal(units[u].globalProfile, p))];
      } else if f.upstream {
        if units[u].upstream {
          units := units[u := units[u].(upstream := false)];
          var own := ContinueSync(u, units[u].unitProfile, f);
          units := units[u := units[u].(unitProfile := own)];
        } else {
          units := units[u := units[u].(unitProfile := units[u].unitProfile.(state := p.state))];
          p := ContinueSync(u, p, f);
        }
      } else if f.source {
        p := ContinueSync(u, p, f.(source := false));
      } else {
        p := Apply(units[u].unitProfile, p);
        p := ContinueSync(u, p, f);
      }
    }

    method ContinueSync(u: nat, profile: Profile, f: Flags) returns (p: Profile)
      requires Valid() && u in graph.outs
      modifies this
      ensures Valid() && (Now(), p) == UnitSync.ContinueSync(graph, old(Now()), u, 0, profile, f)
      decreases graph.rank[u], 1
    {
      p := profile;
      for i := 0 to |graph.outs[u]|
        invariant Valid()
        invariant UnitSync.ContinueSync(graph, Now(), u, i, p, f) ==
          UnitSync.ContinueSync(graph, old(Now()), u, 0, profile, f)
      {
        var out := graph.outs[u][i];
        if out.connected {
          p := SyncLine(out.to, p, f, out.input);
        }
      }
    }

    /** `cycle_line` for a sync cycle. */
    method CycleLine(u: nat)
      requires Valid() && u in graph.outs
      modifies this
      ensures Valid() && Now() == UnitSync.CycleLine(graph, old(Now()), u)
      decreases graph.rank[u]
    {
      var p := SyncLine(u, Restart(units[u].lineProfile), SOURCE, 0);
      units := units[u := units[u].(lineProfile := p)];
      for i := 0 to |graph.outs[u]|
        invariant Valid()
        invariant CycleOutputs(graph, Now(), u, i) == UnitSync.CycleLine(graph, old(Now()), u)
      {
        var out := graph.outs[u][i];
        if out.connected {
          CycleLine(out.to);
        }
      }
    }

    method Cycle()
      requires Valid()
      modifies this
      ensures Valid() && Now() == UnitSync.Cycle(graph, old(Now()), mainlines)
    {
      for i := 0 to |mainlines|
        invariant Valid()
        invariant UnitSync.Cycle(graph, Now(), mainlines[i..]) == UnitSync.Cycle(graph, old(Now()), mainlines)
      {
        CycleLine(mainlines[i]);
      }
    }

    method SyncShared(profile: Profile, f: Flags) returns (p: Profile)
      requires Valid()
      modifies this
      ensures Valid() && (Now(), p) == UnitSync.SyncShared(graph, old(Now()), mainlines, profile, f)
    {
      p := profile;
      for i := 0 to |mainlines|
        invariant Valid()
        invariant UnitSync.SyncShared(graph, Now(), mainlines[i..], p, f) ==
          UnitSync.SyncShared(graph, old(Now()), mainlines, profile, f)
      {
        p := SyncLine(mainlines[i], p, f, 0);
      }
    }

    method SyncCopies(f: Flags)
      requires Valid()
      modifies this
      ensures Valid() && Now() == UnitSync.SyncCopies(graph, old(Now()), mainlines, f)
    {
      for i := 0 to |mainlines|
        invariant Valid()
        invariant UnitSync.SyncCopies(graph, Now(), mainlines[i..], f) ==
          UnitSync.SyncCopies(graph, old(Now()), mainlines, f)
      {
        var bogus := SyncLine(mainlines[i], global, f, 0);
      }
    }

    method Sync(f: Flags)
      requires Valid()
      modifies this
      ensures Valid() && Now() == UnitSync.Sync(graph, old(Now()), mainlines, f)
    {
      if f.downstream {
        Cycle();
      }
      if f.duration {
        Cycle();
        return;
      }
      if f.glob {
        var p := SyncShared(global, f);
        global := p;
      } else if f.upstream {
        SyncCopies(f);
      }
      Cycle();
    }

    /** The rack thread's loop body after the AC cycle. */
    method Iterate()
      requires Valid()
      modifies this
      ensures Valid() && Now() == UnitSync.Iterate(graph, old(Now()), mainlines)
    {
      if resync {
        if flags != NONE {
          if flags.upstream {
            Sync(UPSTREAM);
            flags := flags.(upstream := !flags.upstream);
          }
          Sync(flags);
          flags := NONE;
        } else {
          Cycle();
        }
        resync := false;
      }
      cycles := cycles - 1;
    }
  }
}
