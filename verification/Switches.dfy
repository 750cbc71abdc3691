/** What a turn leaves of the kernel switches. */
module SwitchFacts {
  import opened Host
  import opened Planning
  import opened Turns
  import opened NothingLost
  import opened Safety
  import opened Idempotence
  import opened TableFacts

  ghost predicate Wanted(r: Rendering, key: string, value: string) {
    exists x :: x in r.switches && x.key == key && x.value == value
  }

  /** A plan sets a switch exactly when the kernel has it with another value than is wanted. */
  lemma {:induction false} SwitchesPlanned(r: Rendering, listing: seq<Path>, w: World, probe: Probe, key: string,
      value: string)
    ensures SetsTo(PlanFor(r, listing, w, probe).steps, key, value) <==>
              Wanted(r, key, value) && key in w.switches && w.switches[key] != value
  {
    var plan := PlanFor(r, listing, w, probe);
    SwitchMembers(r.switches, w.switches);
    SwitchStepMembers(plan.switches);
    if s :| s in plan.steps && s.action == SetSwitch(key, value) {
      PartsOf(r, listing, w, probe, s);
      SwitchOrigin(plan, r, w, probe, s);
      var c :| c in plan.switches && c.changed && s == Step(KERNEL, SetSwitch(c.switch_.key, c.switch_.value), false);
    }
    if x :| x in r.switches && x.key == key && x.value == value && key in w.switches && w.switches[key] != value {
      assert SwitchChange(x, true) in plan.switches;
      PartsIn(r, listing, w, probe, Step(KERNEL, SetSwitch(key, value), false));
      assert Step(KERNEL, SetSwitch(key, value), false).action == SetSwitch(key, value);
    }
  }

  ghost predicate SetsTo(steps: seq<Step>, key: string, value: string) {
    exists s :: s in steps && s.action == SetSwitch(key, value)
  }

  predicate SetsKey(s: Step, key: string) { s.action.SetSwitch? && s.action.key == key }

  ghost predicate SameSwitch(w: World, v: World, key: string) {
    (key in w.switches <==> key in v.switches) && (key in w.switches ==> w.switches[key] == v.switches[key])
  }

  lemma {:induction false} EffectSwitch(w: World, a: Action, key: string)
    ensures if a.SetSwitch? && a.key == key then key in Effect(w, a).switches && Effect(w, a).switches[key] == a.value
            else SameSwitch(w, Effect(w, a), key)
  {
    if a.Run? { assert CommandEffect(w, a.command) == Do(w, DeedOf(a.command)); }
  }

  lemma {:induction false} CommittedSwitch(w: World, steps: seq<Step>, i: nat, ends: nat -> Outcome, ran: set<StepKey>,
      refused: seq<Step>, key: string)
    requires i <= |steps|
    ensures var c := CommitFrom(w, steps, i, ends, ran, refused);
            && (SameSwitch(w, c.world, key) || (key in c.world.switches && SetsTo(steps, key, c.world.switches[key])))
            && (c.stopped.None? && (exists k :: i <= k < |steps| && SetsKey(steps[k], key)) ==>
                  key in c.world.switches && SetsTo(steps, key, c.world.switches[key]))
    decreases |steps| - i
  {
    if i < |steps| {
      var s := steps[i];
      assert s in steps;
      EffectSwitch(w, s.action, key);
      if ends(i) == Done {
        CommittedSwitch(Effect(w, s.action), steps, i + 1, ends, ran + {KeyOf(s)}, refused, key);
      } else if s.action.WriteRecord? {
        CommittedSwitch(w, steps, i + 1, ends, ran, refused + [s], key);
      }
    }
  }

  lemma {:induction false} StagedSwitch(w: World, files: seq<FileChange>, i: nat, ok: nat -> bool)
    requires i <= |files|
    ensures StageFrom(w, files, i, ok).0.switches == w.switches
    decreases |files| - i
  {
    if i < |files| && !(Touches(files[i]) && !ok(i)) { StagedSwitch(StageOne(w, files[i]), files, i + 1, ok); }
  }

  lemma {:induction false} TurnSwitch(w: World, plan: Plan, declaration: Option<string>, luck: Luck, key: string)
    ensures var t := Turn(w, plan, declaration, luck);
            && (SameSwitch(w, t.world, key)
                || (key in t.world.switches && SetsTo(plan.steps, key, t.world.switches[key])))
            && (t.ending == Succeeded && (exists v :: SetsTo(plan.steps, key, v)) ==>
                  key in t.world.switches && SetsTo(plan.steps, key, t.world.switches[key]))
  {
    if !Empty(plan) {
      var staged := StageFrom(w, plan.files, 0, luck.stage).0;
      StagedSwitch(w, plan.files, 0, luck.stage);
      CommittedSwitch(Accepting(staged, declaration), plan.steps, 0, luck.commit, {}, [], key);
      if v :| SetsTo(plan.steps, key, v) {
        var s :| s in plan.steps && s.action == SetSwitch(key, v);
        var k :| 0 <= k < |plan.steps| && plan.steps[k] == s;
        assert SetsKey(plan.steps[k], key);
      }
    }
  }

  /** However a turn ends, attended or not, a switch the kernel has holds what it held or what is
      wanted of it, one it has not is not there, and one of which nothing is wanted is as it
      was. A turn somebody asked for that succeeds leaves what is wanted. */
  lemma {:induction false} SwitchAfterTurn(e: Event, w: World, key: string)
    requires IsTurn(e)
    ensures var t := ResultOf(e, w);
            && (key in t.world.switches <==> key in w.switches)
            && (key in w.switches ==>
                  t.world.switches[key] == w.switches[key] || Wanted(e.rendering, key, t.world.switches[key]))
            && (e.Attended? && t.ending == Succeeded && key in w.switches ==>
                  forall v :: Wanted(e.rendering, key, v) ==> Wanted(e.rendering, key, t.world.switches[key]))
  {
    var t := ResultOf(e, w);
    TurnSwitch(w, PlanOf(e, w), DeclarationOf(e), e.luck, key);
    PlanKeepsSteps(e, w);
    if key in t.world.switches && SetsTo(PlanOf(e, w).steps, key, t.world.switches[key]) {
      assert SetsTo(FullPlan(e, w).steps, key, t.world.switches[key]);
      SwitchesPlanned(e.rendering, e.listing, w, e.probe, key, t.world.switches[key]);
    }
    forall v | e.Attended? && t.ending == Succeeded && key in w.switches && Wanted(e.rendering, key, v)
      ensures Wanted(e.rendering, key, t.world.switches[key])
    {
      SwitchesPlanned(e.rendering, e.listing, w, e.probe, key, v);
    }
  }
}
