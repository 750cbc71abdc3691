/** What a whole list of steps leaves of each part of the world, whatever order it mixes
    the parts in. */
module Effects {
  import opened Orders
  import opened Host
  import opened Planning
  import opened Turns
  import opened PlanFacts
  import opened NothingLost
  import opened Safety

  lemma {:induction false} CommitIsRunAll(w: World, steps: seq<Step>, i: nat, ends: nat -> Outcome, ran: set<StepKey>,
      refused: seq<Step>)
    requires i <= |steps|
    requires var c := CommitFrom(w, steps, i, ends, ran, refused); c.stopped.None? && |c.refused| == |refused|
    ensures CommitFrom(w, steps, i, ends, ran, refused).world == RunAll(w, steps[i..])
    decreases |steps| - i
  {
    if i < |steps| {
      assert steps[i..][1..] == steps[i + 1..];
      if ends(i) == Done {
        CommitIsRunAll(Effect(w, steps[i].action), steps, i + 1, ends, ran + {KeyOf(steps[i])}, refused);
      } else if steps[i].action.WriteRecord? {
        RefusedGrows(w, steps, i + 1, ends, ran, refused + [steps[i]]);
      }
    }
  }

  // ----- files, links ----------------------------------------------------------------

  lemma {:induction false} RunAllDisk(w: World, steps: seq<Step>, p: Path)
    ensures p in RunAll(w, steps).disk <==> p in w.disk && forall s :: s in steps ==> s.action != RemoveFile(p)
    ensures p in RunAll(w, steps).disk ==> RunAll(w, steps).disk[p] == w.disk[p]
    decreases |steps|
  {
    if steps != [] {
      assert steps == [steps[0]] + steps[1..];
      RunAllDisk(Effect(w, steps[0].action), steps[1..], p);
    }
  }

  lemma {:induction false} RunAllLeaves(w: World, steps: seq<Step>)
    ensures RunAll(w, steps).links == w.links && RunAll(w, steps).installed == w.installed
        && RunAll(w, steps).owed == w.owed
    decreases |steps|
  {
    if steps != [] { RunAllLeaves(Effect(w, steps[0].action), steps[1..]); }
  }

  // ----- switches --------------------------------------------------------------------

  predicate Sets(s: Step, key: string) { s.action.SetSwitch? && s.action.key == key }

  lemma {:induction false} RunAllSwitch(w: World, steps: seq<Step>, key: string, value: string)
    requires forall s :: s in steps && Sets(s, key) ==> s.action.value == value
    requires key in w.switches ==> w.switches[key] == value || exists s :: s in steps && Sets(s, key)
    ensures key in RunAll(w, steps).switches ==> RunAll(w, steps).switches[key] == value
    decreases |steps|
  {
    if steps != [] {
      assert steps == [steps[0]] + steps[1..];
      RunAllSwitch(Effect(w, steps[0].action), steps[1..], key, value);
    }
  }

  // ----- records ---------------------------------------------------------------------

  predicate Writes(s: Step, id: RecordId) { s.action.WriteRecord? && s.action.record.id == id }

  lemma {:induction false} RunAllRecord(w: World, steps: seq<Step>, record: Record)
    requires forall s :: s in steps && Writes(s, record.id) ==> s.action.record == record
    requires !MustWrite(record, w.written) || exists s :: s in steps && Writes(s, record.id)
    ensures !MustWrite(record, RunAll(w, steps).written)
    decreases |steps|
  {
    if steps != [] {
      assert steps == [steps[0]] + steps[1..];
      RunAllRecord(Effect(w, steps[0].action), steps[1..], record);
    }
  }

  // ----- units -----------------------------------------------------------------------

  predicate Starts(s: Step, unit: string) {
    s.action.Run? && s.action.command.name == "systemctl" &&
    (s.action.command.args == ["enable", "--now", unit] || s.action.command.args == ["start", unit]
     || s.action.command.args == ["restart", unit])
  }

  predicate Stops(s: Step, unit: string) {
    s.action.Run? && s.action.command.name == "systemctl" && s.action.command.args == ["disable", "--now", unit]
  }

  lemma {:induction false} OneStepOnUnit(w: World, s: Step, unit: string)
    requires !Stops(s, unit)
    ensures unit in w.active || Starts(s, unit) ==> unit in Effect(w, s.action).active
  {
    if s.action.Run? && s.action.command.name == "systemctl" {
      var args := s.action.command.args;
      if |args| == 3 && args[0] == "disable" && args[1] == "--now" { assert args == ["disable", "--now", args[2]]; }
    }
  }

  lemma {:induction false} RunAllUnit(w: World, steps: seq<Step>, unit: string)
    requires forall s :: s in steps ==> !Stops(s, unit)
    requires unit in w.active || exists s :: s in steps && Starts(s, unit)
    ensures unit in RunAll(w, steps).active
    decreases |steps|
  {
    if steps != [] {
      assert steps == [steps[0]] + steps[1..];
      OneStepOnUnit(w, steps[0], unit);
      RunAllUnit(Effect(w, steps[0].action), steps[1..], unit);
    }
  }

  // ----- the table -------------------------------------------------------------------

  predicate OnTable(s: Step) { s.action.SeedSets? || Installs(s) }

  function TableSteps(steps: seq<Step>): seq<Step> {
    if steps == [] then [] else (if OnTable(steps[0]) then [steps[0]] else []) + TableSteps(steps[1..])
  }

  lemma {:induction false} OneStepOnTable(w: World, v: World, s: Step)
    requires w.table == v.table
    ensures Effect(w, s.action).table == Effect(v, s.action).table
    ensures !OnTable(s) ==> Effect(w, s.action).table == w.table
  {
    if s.action.Run? { assert CommandEffect(w, s.action.command) == Do(w, DeedOf(s.action.command)); }
  }

  lemma {:induction false} TableOnly(w: World, v: World, steps: seq<Step>)
    requires w.table == v.table
    ensures RunAll(w, steps).table == RunAll(v, TableSteps(steps)).table
    decreases |steps|
  {
    if steps != [] {
      var s := steps[0];
      OneStepOnTable(w, v, s);
      if OnTable(s) {
        assert TableSteps(steps)[1..] == TableSteps(steps[1..]);
        TableOnly(Effect(w, s.action), Effect(v, s.action), steps[1..]);
      } else {
        assert TableSteps(steps) == TableSteps(steps[1..]);
        TableOnly(Effect(w, s.action), v, steps[1..]);
      }
    }
  }

  lemma {:induction false} TableStepsNone(steps: seq<Step>)
    requires forall s :: s in steps ==> !OnTable(s)
    ensures TableSteps(steps) == []
  {
    if steps != [] {
      assert steps[0] in steps && forall s :: s in steps[1..] ==> s in steps;
      TableStepsNone(steps[1..]);
    }
  }

  lemma {:induction false} TableStepsJoin(a: seq<Step>, b: seq<Step>)
    ensures TableSteps(a + b) == TableSteps(a) + TableSteps(b)
  {
    if a == [] {
      assert a + b == b;
    } else {
      assert (a + b)[1..] == a[1..] + b;
      TableStepsJoin(a[1..], b);
    }
  }

  lemma {:induction false} TableStepsInsert(steps: seq<Step>, step: Step)
    requires !OnTable(step)
    ensures TableSteps(InsertStep(steps, step)) == TableSteps(steps)
  {
    var more := InsertStep(steps, step);
    if steps != [] && steps[0].phase <= step.phase {
      TableStepsInsert(steps[1..], step);
      assert more[0] == steps[0] && more[1..] == InsertStep(steps[1..], step);
    } else {
      assert more[0] == step && more[1..] == steps;
    }
  }

  lemma {:induction false} TableStepsOwed(at: Owing, owed: seq<OwedStep>, links: set<string>)
    ensures TableSteps(AddOwed(at, owed, links).steps) == TableSteps(at.steps)
    decreases |owed|
  {
    if owed != [] {
      if Skipped(owed[0], at.steps, links) {
        TableStepsOwed(at, owed[1..], links);
      } else {
        TableStepsInsert(at.steps, StepFor(owed[0]));
        TableStepsOwed(Owing(InsertStep(at.steps, StepFor(owed[0])), at.owed + [owed[0]]), owed[1..], links);
      }
    }
  }

  // ----- seeding ---------------------------------------------------------------------

  lemma {:induction false} SeededHolds(sets: map<string, seq<string>>, seeds: seq<SetElements>, name: string)
    requires DistinctSets(seeds)
    ensures name in Seeded(sets, seeds) <==> name in sets || exists s :: s in seeds && s.name == name
    ensures (forall s :: s in seeds ==> s.name != name) && name in sets ==> Seeded(sets, seeds)[name] == sets[name]
    ensures forall s :: s in seeds && s.name == name ==>
        name in Seeded(sets, seeds) && Seeded(sets, seeds)[name] == Canonical(s.elements)
    decreases |seeds|
  {
    if seeds != [] {
      assert seeds == [seeds[0]] + seeds[1..];
      assert DistinctSets(seeds[1..]);
      SeededHolds(sets[seeds[0].name := Canonical(seeds[0].elements)], seeds[1..], name);
      forall s | s in seeds && s.name == name
        ensures name in Seeded(sets, seeds) && Seeded(sets, seeds)[name] == Canonical(s.elements)
      {
        if s == seeds[0] {
          forall t | t in seeds[1..] ensures t.name != name {
            var j :| 0 <= j < |seeds[1..]| && seeds[1..][j] == t;
            assert seeds[j + 1] == t;
          }
        }
      }
    }
  }
}
