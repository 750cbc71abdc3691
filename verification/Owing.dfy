/** What addOwed and the insertion keep true of a plan, whatever the file said. */
module OwingFacts {
  import opened Host
  import opened Planning

  /** The reload that follows the units that are taken away. */
  const LATE_RELOAD := OwedStep(PROCESSES, "systemctl", ["daemon-reload"])

  ghost predicate AsksFor(owed: seq<OwedStep>, d: Daemon) {
    exists o :: o in owed && Reloads(o, d)
  }

  ghost predicate PhaseSorted(steps: seq<Step>) {
    forall i, j :: 0 <= i < j < |steps| ==> steps[i].phase <= steps[j].phase
  }

  /** Every command of the plan that could be owed is marked so. */
  ghost predicate Marked(steps: seq<Step>) {
    forall s :: s in steps && s.action.Run? && Owable(s.action.command.name, s.action.command.args) ==> s.owed
  }

  /** What is owed is in the plan's steps. */
  ghost predicate Backed(owed: seq<OwedStep>, steps: seq<Step>) {
    forall o :: o in owed ==> OwedKey(o) in KeysOf(steps)
  }

  ghost predicate Holds(owed: seq<OwedStep>, key: StepKey) {
    exists o :: o in owed && OwedKey(o) == key
  }

  /** Every owed-marked step of the plan is among the plan's owed. */
  ghost predicate Noted(steps: seq<Step>, owed: seq<OwedStep>) {
    forall s :: s in steps && s.owed && s.action.Run? ==> Holds(owed, KeyOf(s))
  }

  /** Units are taken away only before the reload that tells systemd, which is noted as owed. */
  ghost predicate RemovalsFirst(steps: seq<Step>, owed: seq<OwedStep>) {
    forall i :: 0 <= i < |steps| && steps[i].action.RemoveFile? ==> RemovalAt(steps, owed, i)
  }

  ghost predicate RemovalAt(steps: seq<Step>, owed: seq<OwedStep>, i: nat)
    requires i < |steps| && steps[i].action.RemoveFile?
  {
    && ReaderOf(steps[i].action.path) == Some(Systemd)
    && LATE_RELOAD in owed
    && forall k :: 0 <= k <= i ==> KeyOf(steps[k]) != OwedKey(LATE_RELOAD)
  }

  // ----- insertion -------------------------------------------------------------------

  function InsertAt(steps: seq<Step>, step: Step): (at: nat)
    ensures at <= |steps|
    ensures InsertStep(steps, step) == steps[..at] + [step] + steps[at..]
    ensures forall i :: 0 <= i < at ==> steps[i].phase <= step.phase
    ensures at < |steps| ==> steps[at].phase > step.phase
  {
    if steps == [] then 0
    else if steps[0].phase > step.phase then 0
    else
      var at := InsertAt(steps[1..], step);
      assert steps == [steps[0]] + steps[1..];
      assert steps[..at + 1] == [steps[0]] + steps[1..][..at];
      at + 1
  }

  lemma {:induction false} InsertMembers(steps: seq<Step>, step: Step)
    ensures forall s :: s in InsertStep(steps, step) <==> s == step || s in steps
    ensures KeysOf(InsertStep(steps, step)) == KeysOf(steps) + {KeyOf(step)}
  {
    var at := InsertAt(steps, step);
    assert steps == steps[..at] + steps[at..];
    var more := InsertStep(steps, step);
    forall s ensures s in more <==> s == step || s in steps {
      assert s in more <==> s in steps[..at] || s == step || s in steps[at..];
      assert s in steps <==> s in steps[..at] || s in steps[at..];
    }
    forall k ensures k in KeysOf(more) <==> k in KeysOf(steps) + {KeyOf(step)} {}
  }

  lemma {:induction false} InsertSorted(steps: seq<Step>, step: Step)
    requires PhaseSorted(steps)
    ensures PhaseSorted(InsertStep(steps, step))
  {
    if steps != [] {
      if steps[0].phase > step.phase {
        assert forall i :: 0 <= i < |steps| ==> step.phase <= steps[i].phase;
      } else {
        var rest := InsertStep(steps[1..], step);
        InsertSorted(steps[1..], step);
        InsertMembers(steps[1..], step);
        forall i | 0 <= i < |rest| ensures steps[0].phase <= rest[i].phase {
          assert rest[i] in rest;
        }
      }
    }
  }

  lemma {:induction false} InsertKeepsRemovals(steps: seq<Step>, step: Step, owed: seq<OwedStep>, o: OwedStep)
    requires RemovalsFirst(steps, owed)
    requires !step.action.RemoveFile?
    requires forall s :: s in steps && s.action.RemoveFile? ==> KeyOf(step) != OwedKey(LATE_RELOAD)
    ensures RemovalsFirst(InsertStep(steps, step), owed + [o])
  {
    var at := InsertAt(steps, step);
    var more := InsertStep(steps, step);
    forall i | 0 <= i < |more| && more[i].action.RemoveFile? ensures RemovalAt(more, owed + [o], i) {
      var j := if i < at then i else i - 1;
      assert more[i] == steps[j];
      assert steps[j] in steps;
      assert RemovalAt(steps, owed, j);
      forall k | 0 <= k <= i ensures KeyOf(more[k]) != OwedKey(LATE_RELOAD) {
        if k < at { assert more[k] == steps[k]; } else if k > at { assert more[k] == steps[k - 1]; }
      }
    }
  }

  // ----- addOwed ---------------------------------------------------------------------

  ghost predicate Sound(at: Owing) {
    && Marked(at.steps) && Noted(at.steps, at.owed) && Backed(at.owed, at.steps)
    && RemovalsFirst(at.steps, at.owed)
  }

  lemma {:induction false} AddOne(at: Owing, o: OwedStep, links: set<string>)
    requires Sound(at) && !Skipped(o, at.steps, links)
    ensures Sound(Owing(InsertStep(at.steps, StepFor(o)), at.owed + [o]))
  {
    var step := StepFor(o);
    InsertMembers(at.steps, step);
    forall s | s in at.steps && s.action.RemoveFile? ensures KeyOf(step) != OwedKey(LATE_RELOAD) {
      var i :| 0 <= i < |at.steps| && at.steps[i] == s;
      assert RemovalAt(at.steps, at.owed, i);
      assert OwedKey(LATE_RELOAD) in KeysOf(at.steps);
    }
    InsertKeepsRemovals(at.steps, step, at.owed, o);
    var more := InsertStep(at.steps, step);
    forall s | s in more && s.owed && s.action.Run? ensures Holds(at.owed + [o], KeyOf(s)) {
      if s == step {
        assert o in at.owed + [o] && OwedKey(o) == KeyOf(s);
      } else {
        assert Holds(at.owed, KeyOf(s));
        var e :| e in at.owed && OwedKey(e) == KeyOf(s);
        assert e in at.owed + [o];
      }
    }
  }

  lemma {:induction false} AddOwedSound(at: Owing, owed: seq<OwedStep>, links: set<string>)
    requires Sound(at)
    ensures Sound(AddOwed(at, owed, links))
    decreases |owed|
  {
    if owed != [] {
      if Skipped(owed[0], at.steps, links) {
        AddOwedSound(at, owed[1..], links);
      } else {
        AddOne(at, owed[0], links);
        AddOwedSound(Owing(InsertStep(at.steps, StepFor(owed[0])), at.owed + [owed[0]]), owed[1..], links);
      }
    }
  }

  lemma {:induction false} AddOwedGrows(at: Owing, owed: seq<OwedStep>, links: set<string>)
    ensures KeysOf(at.steps) <= KeysOf(AddOwed(at, owed, links).steps)
    ensures forall o :: o in at.owed ==> o in AddOwed(at, owed, links).owed
    ensures forall s :: s in at.steps ==> s in AddOwed(at, owed, links).steps
    ensures forall s :: s in AddOwed(at, owed, links).steps ==>
              s in at.steps || exists o :: o in owed && s == StepFor(o) && Owable(o.name, o.args)
    decreases |owed|
  {
    if owed != [] {
      var next := if Skipped(owed[0], at.steps, links) then at
                  else Owing(InsertStep(at.steps, StepFor(owed[0])), at.owed + [owed[0]]);
      InsertMembers(at.steps, StepFor(owed[0]));
      AddOwedGrows(next, owed[1..], links);
      assert owed[0] in owed && forall o :: o in owed[1..] ==> o in owed;
    }
  }

  lemma {:induction false} AddOwedSorted(at: Owing, owed: seq<OwedStep>, links: set<string>)
    requires PhaseSorted(at.steps)
    ensures PhaseSorted(AddOwed(at, owed, links).steps)
    decreases |owed|
  {
    if owed != [] {
      InsertSorted(at.steps, StepFor(owed[0]));
      var next := if Skipped(owed[0], at.steps, links) then at
                  else Owing(InsertStep(at.steps, StepFor(owed[0])), at.owed + [owed[0]]);
      AddOwedSorted(next, owed[1..], links);
    }
  }

  /** Everything the file held is in the plan, but for what may not be run and links that are gone. */
  lemma {:induction false} AddOwedKeeps(at: Owing, owed: seq<OwedStep>, links: set<string>, o: OwedStep)
    requires o in owed && Owable(o.name, o.args) && !LinkGone(o, links)
    ensures OwedKey(o) in KeysOf(AddOwed(at, owed, links).steps)
    decreases |owed|
  {
    var step := StepFor(owed[0]);
    var next := if Skipped(owed[0], at.steps, links) then at
                else Owing(InsertStep(at.steps, step), at.owed + [owed[0]]);
    InsertMembers(at.steps, step);
    if o == owed[0] {
      assert KeyOf(step) in KeysOf(next.steps);
      AddOwedGrows(next, owed[1..], links);
    } else {
      assert o in owed[1..] by { assert owed == [owed[0]] + owed[1..]; }
      AddOwedKeeps(next, owed[1..], links, o);
    }
  }

  lemma {:induction false} HeldReload(at: Owing, o: OwedStep, d: Daemon)
    requires Sound(at) && Reloads(o, d) && OwedKey(o) in KeysOf(at.steps)
    ensures AsksFor(at.owed, d)
  {
    var s :| s in at.steps && KeyOf(s) == OwedKey(o);
    assert Owable(o.name, o.args);
    assert s.owed;
    assert Holds(at.owed, KeyOf(s));
    var e :| e in at.owed && OwedKey(e) == KeyOf(s);
    assert Reloads(e, d);
  }
}
