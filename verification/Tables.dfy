/** Which table the kernel holds, beside the ruleset the last apply recorded: what every turn
    leaves of the two, and exactly when they part. */
module TableFacts {
  import opened Orders
  import opened Host
  import opened Planning
  import opened Turns
  import opened OwingFacts
  import opened PlanFacts
  import opened NothingLost
  import opened Safety
  import opened Effects
  import opened Idempotence
  import opened Quiet
  import Backoff = Unattended

  /** The recorded ruleset is the one in the kernel, when there is a table at all. */
  predicate Truthful(w: World) { w.table.Some? ==> w.installed == Some(w.table.value.ruleset) }

  predicate SameRuleset(w: World, v: World) {
    && (w.table.None? <==> v.table.None?)
    && (w.table.Some? ==> w.table.value.ruleset == v.table.value.ruleset)
  }

  lemma {:induction false} EffectOnRuleset(w: World, s: Step)
    ensures !Installs(s) ==> SameRuleset(w, Effect(w, s.action))
    ensures Installs(s) ==> TableIs(Effect(w, s.action), s.action.command.stdin.ruleset)
  {
    if s.action.Run? { assert CommandEffect(w, s.action.command) == Do(w, DeedOf(s.action.command)); }
  }

  // ----- when nothing is installed ---------------------------------------------------

  lemma {:induction false} CommitWithoutInstall(w: World, steps: seq<Step>, i: nat, ends: nat -> Outcome,
      ran: set<StepKey>, refused: seq<Step>)
    requires i <= |steps| && forall s :: s in steps ==> !Installs(s)
    ensures var c := CommitFrom(w, steps, i, ends, ran, refused);
            SameRuleset(w, c.world) && forall k :: 0 <= k < |c.trace| ==> SameRuleset(w, c.trace[k].before)
    decreases |steps| - i
  {
    if i < |steps| {
      EffectOnRuleset(w, steps[i]);
      if ends(i) == Done {
        CommitWithoutInstall(Effect(w, steps[i].action), steps, i + 1, ends, ran + {KeyOf(steps[i])}, refused);
      } else if steps[i].action.WriteRecord? {
        CommitWithoutInstall(w, steps, i + 1, ends, ran, refused + [steps[i]]);
      }
    }
  }

  lemma {:induction false} StageOnRuleset(w: World, files: seq<FileChange>, i: nat, ok: nat -> bool)
    requires i <= |files|
    ensures StageFrom(w, files, i, ok).0.table == w.table && StageFrom(w, files, i, ok).0.installed == w.installed
    decreases |files| - i
  {
    if i < |files| && !(Touches(files[i]) && !ok(i)) { StageOnRuleset(StageOne(w, files[i]), files, i + 1, ok); }
  }

  lemma {:induction false} TurnWithoutInstall(w: World, plan: Plan, declaration: Option<string>, luck: Luck)
    requires forall s :: s in plan.steps ==> !Installs(s)
    ensures var t := Turn(w, plan, declaration, luck);
            SameRuleset(w, t.world) && forall k :: 0 <= k < |t.trace| ==> SameRuleset(w, t.trace[k].before)
  {
    if !Empty(plan) {
      var (staged, ok) := StageFrom(w, plan.files, 0, luck.stage);
      StageOnRuleset(w, plan.files, 0, luck.stage);
      CommitWithoutInstall(Accepting(staged, declaration), plan.steps, 0, luck.commit, {}, []);
    }
  }

  lemma {:induction false} TableStepsMembers(steps: seq<Step>, s: Step)
    ensures s in TableSteps(steps) <==> s in steps && OnTable(s)
  {
    if steps != [] {
      assert steps == [steps[0]] + steps[1..];
      TableStepsMembers(steps[1..], s);
    }
  }

  /** A plan holds the table's step exactly when it says the table is to be replaced. */
  lemma {:induction false} InstallsWhenAsked(r: Rendering, listing: seq<Path>, w: World, probe: Probe, s: Step)
    requires Installs(s)
    ensures s in PlanFor(r, listing, w, probe).steps <==>
        PlanFor(r, listing, w, probe).firewall.apply && s == InstallStep(r.ruleset)
  {
    var plan := PlanFor(r, listing, w, probe);
    TableStepsMembers(plan.steps, s);
    PlanOnTable(r, listing, w, probe);
    assert plan.firewall.ruleset == r.ruleset;
  }

  lemma {:induction false} NoneInstalled(r: Rendering, listing: seq<Path>, w: World, probe: Probe)
    requires !PlanFor(r, listing, w, probe).firewall.apply
    ensures forall s :: s in PlanFor(r, listing, w, probe).steps ==> !Installs(s)
  {
    forall s | s in PlanFor(r, listing, w, probe).steps ensures !Installs(s) {
      if Installs(s) { InstallsWhenAsked(r, listing, w, probe, s); }
    }
  }

  // ----- the table a switch is set under ---------------------------------------------

  /** When an attended turn tries a kernel switch, the table it wants is in the kernel exactly
      if the turn replaces it or it was there to begin with. */
  lemma {:induction false} TableAtSwitch(r: Rendering, listing: seq<Path>, w: World, probe: Probe,
      declaration: Option<string>, luck: Luck, k: nat)
    requires k < |Turn(w, PlanFor(r, listing, w, probe), declaration, luck).trace|
    requires Turn(w, PlanFor(r, listing, w, probe), declaration, luck).trace[k].step.action.SetSwitch?
    ensures TableIs(Turn(w, PlanFor(r, listing, w, probe), declaration, luck).trace[k].before, r.ruleset)
            <==> PlanFor(r, listing, w, probe).firewall.apply || TableIs(w, r.ruleset)
  {
    var plan := PlanFor(r, listing, w, probe);
    if plan.firewall.apply {
      TableBeforeSwitches(r, listing, w, probe, declaration, luck, k);
    } else {
      NoneInstalled(r, listing, w, probe);
      TurnWithoutInstall(w, plan, declaration, luck);
    }
  }

  /** A truthful record is enough: the table wanted is in, or is not there and could not be
      asked for. */
  lemma {:induction false} TruthIsEnough(r: Rendering, listing: seq<Path>, w: World, probe: Probe)
    requires Truthful(w)
    ensures PlanFor(r, listing, w, probe).firewall.apply || TableIs(w, r.ruleset) || (w.table.None? && !probe.tables)
  {}

  // ----- what a turn leaves ----------------------------------------------------------

  /** Whether the table's step took effect: it ended well, or failed after its effect. */
  predicate PutIn(trace: seq<Attempt>, ends: nat -> Outcome, i: nat)
    decreases |trace|
  {
    trace != [] && ((Installs(trace[0].step) && ends(i) != Failed) || PutIn(trace[1..], ends, i + 1))
  }

  lemma {:induction false} PutInIs(trace: seq<Attempt>, ends: nat -> Outcome, i: nat)
    ensures PutIn(trace, ends, i) <==> exists k :: 0 <= k < |trace| && Installs(trace[k].step) && ends(i + k) != Failed
    decreases |trace|
  {
    if trace != [] {
      PutInIs(trace[1..], ends, i + 1);
      if PutIn(trace[1..], ends, i + 1) {
        var k :| 0 <= k < |trace[1..]| && Installs(trace[1..][k].step) && ends(i + 1 + k) != Failed;
        assert trace[k + 1] == trace[1..][k] && ends(i + (k + 1)) != Failed;
      }
      if k :| 0 <= k < |trace| && Installs(trace[k].step) && ends(i + k) != Failed {
        if k > 0 { assert trace[1..][k - 1] == trace[k] && ends(i + 1 + (k - 1)) != Failed; }
      }
    }
  }

  lemma {:induction false} PutInCons(attempt: Attempt, rest: seq<Attempt>, ends: nat -> Outcome, i: nat)
    ensures PutIn([attempt] + rest, ends, i) <==>
        (Installs(attempt.step) && ends(i) != Failed) || PutIn(rest, ends, i + 1)
  {
    assert ([attempt] + rest)[1..] == rest;
  }

  /** The table a commit leaves: the one it puts in, or the one there was. */
  ghost predicate Leaves(w: World, after: World, put: bool, ruleset: Ruleset) {
    if put then TableIs(after, ruleset) else SameRuleset(w, after)
  }

  lemma {:induction false} CommitLeaves(w: World, steps: seq<Step>, i: nat, ends: nat -> Outcome, ran: set<StepKey>,
      refused: seq<Step>, ruleset: Ruleset)
    requires i <= |steps| && OnlyInstalls(steps, ruleset)
    ensures var c := CommitFrom(w, steps, i, ends, ran, refused);
            Leaves(w, c.world, PutIn(c.trace, ends, i), ruleset) && c.world.installed == w.installed
    decreases |steps| - i
  {
    if i < |steps| {
      var s, attempt := steps[i], Attempt(steps[i], w, ends(i) == Done);
      assert s in steps;
      EffectOnRuleset(w, s);
      EffectOnRecord(w, s.action);
      if ends(i) == Done {
        var rest := CommitFrom(Effect(w, s.action), steps, i + 1, ends, ran + {KeyOf(s)}, refused);
        CommitLeaves(Effect(w, s.action), steps, i + 1, ends, ran + {KeyOf(s)}, refused, ruleset);
        PutInCons(attempt, rest.trace, ends, i);
      } else if s.action.WriteRecord? {
        var rest := CommitFrom(w, steps, i + 1, ends, ran, refused + [s]);
        CommitLeaves(w, steps, i + 1, ends, ran, refused + [s], ruleset);
        PutInCons(attempt, rest.trace, ends, i);
      } else {
        PutInCons(attempt, [], ends, i);
        assert [attempt] + [] == [attempt]
            && CommitFrom(w, steps, i, ends, ran, refused).world == AfterStep(w, s, ends(i));
      }
    }
  }

  lemma {:induction false} EffectOnRecord(w: World, a: Action)
    ensures Effect(w, a).installed == w.installed
  {
    if a.Run? { assert CommandEffect(w, a.command) == Do(w, DeedOf(a.command)); }
  }

  /** Whether the turn writes down the ruleset of its plan as the one installed. */
  predicate Records(plan: Plan, ending: Ending, luck: Luck) {
    plan.firewall.apply && ending == Succeeded && luck.record
  }

  lemma {:induction false} TurnLeaves(w: World, plan: Plan, declaration: Option<string>, luck: Luck, ruleset: Ruleset)
    requires OnlyInstalls(plan.steps, ruleset)
    ensures var t := Turn(w, plan, declaration, luck);
            && Leaves(w, t.world, PutIn(t.trace, luck.commit, 0), ruleset)
            && t.world.installed == if Records(plan, t.ending, luck) then Some(plan.firewall.ruleset) else w.installed
  {
    if !Empty(plan) {
      var (staged, ok) := StageFrom(w, plan.files, 0, luck.stage);
      StageOnRuleset(w, plan.files, 0, luck.stage);
      CommitLeaves(Accepting(staged, declaration), plan.steps, 0, luck.commit, {}, [], ruleset);
    }
  }

  /** A commit that is not stopped has put the table in when it held the step for it. */
  lemma {:induction false} PutWhenHeld(w: World, steps: seq<Step>, i: nat, ends: nat -> Outcome, ran: set<StepKey>,
      refused: seq<Step>)
    requires i <= |steps| && CommitFrom(w, steps, i, ends, ran, refused).stopped.None?
    ensures PutIn(CommitFrom(w, steps, i, ends, ran, refused).trace, ends, i) <==>
        exists k :: i <= k < |steps| && Installs(steps[k])
    decreases |steps| - i
  {
    if i < |steps| {
      var s, attempt := steps[i], Attempt(steps[i], w, ends(i) == Done);
      if ends(i) == Done {
        var rest := CommitFrom(Effect(w, s.action), steps, i + 1, ends, ran + {KeyOf(s)}, refused);
        PutWhenHeld(Effect(w, s.action), steps, i + 1, ends, ran + {KeyOf(s)}, refused);
        PutInCons(attempt, rest.trace, ends, i);
      } else {
        var rest := CommitFrom(w, steps, i + 1, ends, ran, refused + [s]);
        PutWhenHeld(w, steps, i + 1, ends, ran, refused + [s]);
        PutInCons(attempt, rest.trace, ends, i);
      }
    }
  }

  lemma {:induction false} SucceededPut(w: World, plan: Plan, declaration: Option<string>, luck: Luck)
    requires Turn(w, plan, declaration, luck).ending == Succeeded
    ensures PutIn(Turn(w, plan, declaration, luck).trace, luck.commit, 0) <==>
        exists s :: s in plan.steps && Installs(s)
  {
    if !Empty(plan) {
      var (staged, ok) := StageFrom(w, plan.files, 0, luck.stage);
      PutWhenHeld(Accepting(staged, declaration), plan.steps, 0, luck.commit, {}, []);
      if s :| s in plan.steps && Installs(s) {
        var k :| 0 <= k < |plan.steps| && plan.steps[k] == s;
        assert Installs(plan.steps[k]);
      }
    }
  }

  // ----- every turn, attended or not -------------------------------------------------

  predicate IsTurn(e: Event) { e.Attended? || e.Unattended? }

  function FullPlan(e: Event, w: World): Plan
    requires IsTurn(e)
  {
    PlanFor(e.rendering, e.listing, w, e.probe)
  }

  function Install(e: Event): Step
    requires IsTurn(e)
  {
    InstallStep(e.rendering.ruleset)
  }

  lemma {:induction false} PlanKeepsSteps(e: Event, w: World)
    requires IsTurn(e)
    ensures forall s :: s in PlanOf(e, w).steps ==> s in FullPlan(e, w).steps
    ensures PlanOf(e, w).firewall == FullPlan(e, w).firewall && FullPlan(e, w).firewall.ruleset == e.rendering.ruleset
  {
    if e.Unattended? { FilterKeeps(FullPlan(e, w).steps, 0, e.now, Filtered([], [], e.retries, {})); }
  }

  /** The only table a turn can put in is the one it wants, and only when it is to be replaced. */
  lemma {:induction false} OnlyTheWanted(e: Event, w: World)
    requires IsTurn(e)
    ensures forall s :: s in PlanOf(e, w).steps && Installs(s) ==> s == Install(e) && FullPlan(e, w).firewall.apply
    ensures OnlyInstalls(PlanOf(e, w).steps, e.rendering.ruleset)
  {
    PlanKeepsSteps(e, w);
    forall s | s in PlanOf(e, w).steps && Installs(s) ensures s == Install(e) && FullPlan(e, w).firewall.apply {
      InstallsWhenAsked(e.rendering, e.listing, w, e.probe, s);
    }
  }

  lemma {:induction false} EventLeaves(e: Event, w: World)
    requires IsTurn(e)
    ensures var t := ResultOf(e, w);
            && Leaves(w, t.world, PutIn(t.trace, e.luck.commit, 0), e.rendering.ruleset)
            && t.world.installed ==
                 if Records(PlanOf(e, w), t.ending, e.luck) then Some(e.rendering.ruleset) else w.installed
  {
    OnlyTheWanted(e, w);
    PlanKeepsSteps(e, w);
    TurnLeaves(w, PlanOf(e, w), DeclarationOf(e), e.luck, e.rendering.ruleset);
  }

  /** After any turn that succeeds, the table it wants is in the kernel exactly if the turn had
      the step that puts it in, or it was there to begin with. */
  lemma {:induction false} TableAfterSuccess(e: Event, w: World)
    requires IsTurn(e) && ResultOf(e, w).ending == Succeeded
    ensures TableIs(ResultOf(e, w).world, e.rendering.ruleset) <==>
        Install(e) in PlanOf(e, w).steps || TableIs(w, e.rendering.ruleset)
  {
    EventLeaves(e, w);
    SucceededPut(w, PlanOf(e, w), DeclarationOf(e), e.luck);
    OnlyTheWanted(e, w);
    assert Installs(Install(e));
  }

  // ----- held back -------------------------------------------------------------------

  predicate Named(s: Step, tool: string) { s.action.Run? && s.action.command.name == tool }

  lemma {:induction false} OnlyTheFirewallNamesNft(p: Plan, r: Rendering, w: World, probe: Probe, s: Step)
    requires InParts(p, r, w, probe, s) && Named(s, "nft")
    ensures s in FirewallSteps(p.firewall)
  {
    if s in ProcessSteps(r, p.files, w, probe) {
      ProcessPart(r, p.files, w, probe);
    } else if s in DeferredReclaim(p.files) {
      RemovalPart(p.files);
    } else if s !in FirewallSteps(p.firewall) {
      SwitchPart(p.switches);
      RecordPart(p.records);
    }
  }

  lemma {:induction false} SameNameSameTool(s: Step, ruleset: Ruleset)
    requires Describe(s) == Describe(InstallStep(ruleset))
    ensures Named(s, "nft")
  {}

  lemma {:induction false} PlanRuleset(r: Rendering, listing: seq<Path>, w: World, probe: Probe)
    ensures PlanFor(r, listing, w, probe).firewall.ruleset == r.ruleset
  {}

  /** No other step goes by the name of the one that puts the table in. */
  lemma {:induction false} OneOfItsName(r: Rendering, listing: seq<Path>, w: World, probe: Probe, s: Step)
    requires s in PlanFor(r, listing, w, probe).steps && Describe(s) == Describe(InstallStep(r.ruleset))
    ensures s == InstallStep(r.ruleset)
  {
    SameNameSameTool(s, r.ruleset);
    PlanRuleset(r, listing, w, probe);
    PartsOf(r, listing, w, probe, s);
    NamesNft(PlanFor(r, listing, w, probe), r, w, probe, s);
  }

  lemma {:induction false} NamesNft(p: Plan, r: Rendering, w: World, probe: Probe, s: Step)
    requires InParts(p, r, w, probe, s) || Reloading(s)
    requires Named(s, "nft")
    ensures s == InstallStep(p.firewall.ruleset)
  {
    assert !Reloading(s);
    OnlyTheFirewallNamesNft(p, r, w, probe, s);
  }

  /** An unattended turn has that step exactly if the table is to be replaced and the backoff
      does not hold the step back. */
  lemma {:induction false} InstallIsHeld(e: Event, w: World)
    requires e.Unattended?
    ensures Install(e) in PlanOf(e, w).steps <==>
        FullPlan(e, w).firewall.apply && !Held(e.retries, Describe(Install(e)), e.now)
  {
    var full, install := FullPlan(e, w), Install(e);
    InstallsWhenAsked(e.rendering, e.listing, w, e.probe, install);
    PlanKeepsSteps(e, w);
    Backoff.KeysAreIndependent(full, e.retries, e.now, Describe(install));
    if full.firewall.apply {
      assert install in full.steps && !UnattendedForbidden(install);
      assert Backoff.Present(full.steps, Describe(install));
      if k :| 0 <= k < |PlanOf(e, w).steps| && Describe(PlanOf(e, w).steps[k]) == Describe(install) {
        OneOfItsName(e.rendering, e.listing, w, e.probe, PlanOf(e, w).steps[k]);
      }
    }
  }

  /** So an unattended turn whose table is held back, and which otherwise succeeds, leaves the
      old table and records the new ruleset. */
  lemma {:induction false} HeldBackIsRecorded(e: Event, w: World)
    requires e.Unattended? && w.table.Some? && FullPlan(e, w).firewall.apply
        && Held(e.retries, Describe(Install(e)), e.now)
    requires ResultOf(e, w).ending == Succeeded && e.luck.record
    ensures var after := ResultOf(e, w).world; SameRuleset(w, after) && after.installed == Some(e.rendering.ruleset)
  {
    EventLeaves(e, w);
    SucceededPut(w, PlanOf(e, w), DeclarationOf(e), e.luck);
    OnlyTheWanted(e, w);
    InstallIsHeld(e, w);
  }

  // ----- when the record stays true --------------------------------------------------

  /** What of a turn leaves the record true: it wrote down the table it put in, or did neither;
      or what it put in is what the record held, or there was no table for it to be about. */
  predicate StaysTrue(e: Event, w: World)
    requires IsTurn(e)
  {
    var put := PutIn(ResultOf(e, w).trace, e.luck.commit, 0);
    var recorded := Records(PlanOf(e, w), ResultOf(e, w).ending, e.luck);
    if put then recorded || w.installed == Some(e.rendering.ruleset) else !recorded || w.table.None?
  }

  /** Given a true record, a turn leaves it true exactly then. */
  lemma {:induction false} TruthAfterTurn(e: Event, w: World)
    requires IsTurn(e) && Truthful(w)
    ensures Truthful(ResultOf(e, w).world) <==> StaysTrue(e, w)
  {
    EventLeaves(e, w);
    var put := PutIn(ResultOf(e, w).trace, e.luck.commit, 0);
    if !put && Records(PlanOf(e, w), ResultOf(e, w).ending, e.luck) && w.table.Some? {
      PlanKeepsSteps(e, w);
      assert w.installed != Some(e.rendering.ruleset);
    }
  }

  /** A turn leaves it untrue in two ways: it put the table in and stopped, or could not write
      the ruleset down; or it wrote the ruleset down with the table's step held back. */
  lemma {:induction false} TwoWaysUntrue(e: Event, w: World)
    requires IsTurn(e) && Truthful(w)
    ensures !StaysTrue(e, w) <==>
      || (&& PutIn(ResultOf(e, w).trace, e.luck.commit, 0) && w.installed != Some(e.rendering.ruleset)
          && (ResultOf(e, w).ending != Succeeded || !e.luck.record))
      || (&& e.Unattended? && w.table.Some? && FullPlan(e, w).firewall.apply
          && Held(e.retries, Describe(Install(e)), e.now)
          && ResultOf(e, w).ending == Succeeded && e.luck.record)
  {
    var put := PutIn(ResultOf(e, w).trace, e.luck.commit, 0);
    PlanKeepsSteps(e, w);
    OnlyTheWanted(e, w);
    PutNeedsStep(e, w);
    if ResultOf(e, w).ending == Succeeded { SucceededPut(w, PlanOf(e, w), DeclarationOf(e), e.luck); }
    assert Installs(Install(e));
    if e.Unattended? { InstallIsHeld(e, w); }
    else { InstallsWhenAsked(e.rendering, e.listing, w, e.probe, Install(e)); }
  }

  lemma {:induction false} PutNeedsStep(e: Event, w: World)
    requires IsTurn(e)
    ensures PutIn(ResultOf(e, w).trace, e.luck.commit, 0) ==>
        Install(e) in PlanOf(e, w).steps && FullPlan(e, w).firewall.apply
  {
    var trace := ResultOf(e, w).trace;
    PutInIs(trace, e.luck.commit, 0);
    TurnTrace(w, PlanOf(e, w), DeclarationOf(e), e.luck);
    OnlyTheWanted(e, w);
    if k :| 0 <= k < |trace| && Installs(trace[k].step) && e.luck.commit(0 + k) != Failed {
      assert trace[k].step == PlanOf(e, w).steps[k] && trace[k].step in PlanOf(e, w).steps;
    }
  }

  /** What of any event leaves the record true; whoever else touches the table or the record
      has to leave them agreeing. */
  predicate EventStaysTrue(e: Event, w: World) {
    match e
    case Attended(_, _, _, _, _) => StaysTrue(e, w)
    case Unattended(_, _, _, _, _, _) => StaysTrue(e, w)
    case Edited(_, _) => true
    case ReadByItself(_) => true
    case Elsewhere(after) => Truthful(after)
  }

  /** Over a whole run the record is true throughout exactly if it was to begin with and every
      event leaves it so. */
  lemma {:induction false} TruthOverRun(worlds: seq<World>, events: seq<Event>)
    requires NothingLost.Run(worlds, events)
    ensures (forall i :: 0 <= i < |worlds| ==> Truthful(worlds[i]))
            <==> Truthful(worlds[0]) && forall i :: 0 <= i < |events| ==> EventStaysTrue(events[i], worlds[i])
  {
    if forall i :: 0 <= i < |worlds| ==> Truthful(worlds[i]) {
      forall i | 0 <= i < |events| ensures EventStaysTrue(events[i], worlds[i]) {
        TruthAfterEvent(events[i], worlds[i], worlds[i + 1]);
      }
    } else if Truthful(worlds[0]) && forall i :: 0 <= i < |events| ==> EventStaysTrue(events[i], worlds[i]) {
      forall i | 0 <= i < |worlds| ensures Truthful(worlds[i]) { TruthUpTo(worlds, events, i); }
    }
  }

  lemma {:induction false} TruthUpTo(worlds: seq<World>, events: seq<Event>, i: nat)
    requires NothingLost.Run(worlds, events) && i < |worlds| && Truthful(worlds[0])
    requires forall k :: 0 <= k < |events| ==> EventStaysTrue(events[k], worlds[k])
    ensures Truthful(worlds[i])
  {
    if i > 0 {
      TruthUpTo(worlds, events, i - 1);
      TruthAfterEvent(events[i - 1], worlds[i - 1], worlds[i]);
    }
  }

  lemma {:induction false} TruthAfterEvent(e: Event, w: World, next: World)
    requires Happens(w, e, next) && Truthful(w)
    ensures Truthful(next) <==> EventStaysTrue(e, w)
  {
    if IsTurn(e) { TruthAfterTurn(e, w); }
  }

  /** As long as the record is true, a turn that does not end failing leaves the table it wants
      in the kernel, unless there is none and that could not be asked. */
  lemma {:induction false} ConvergedOnTheTable(e: Event, w: World)
    requires IsTurn(e) && Truthful(w) && StateOf(PlanOf(e, w), ResultOf(e, w)) != Failing
    ensures TableIs(ResultOf(e, w).world, e.rendering.ruleset) || (w.table.None? && !e.probe.tables)
  {
    TruthIsEnough(e.rendering, e.listing, w, e.probe);
    TableAfterSuccess(e, w);
    InstallsWhenAsked(e.rendering, e.listing, w, e.probe, Install(e));
    assert Installs(Install(e));
    if e.Unattended? { Backoff.DroppedIsFailing(e, w); }
  }

  // ----- the table of another declaration --------------------------------------------

  function PlaceOf(steps: seq<Step>, s: Step): (k: nat)
    requires s in steps
    ensures k < |steps| && steps[k] == s
  {
    if steps[0] == s then 0 else 1 + PlaceOf(steps[1..], s)
  }

  lemma {:induction false} EarlierPhase(steps: seq<Step>, k: nat, n: nat)
    requires PhaseSorted(steps) && k < |steps| && n < |steps| && steps[k].phase < steps[n].phase
    ensures k < n
  {}

  /** What was tried before the last of a commit's attempts ended well, but for records. */
  lemma {:induction false} DoneBeforeStop(w: World, steps: seq<Step>, i: nat, ends: nat -> Outcome, ran: set<StepKey>,
      refused: seq<Step>, k: nat)
    requires i <= |steps| && k < |CommitFrom(w, steps, i, ends, ran, refused).trace| - 1
    requires !CommitFrom(w, steps, i, ends, ran, refused).trace[k].step.action.WriteRecord?
    ensures ends(i + k) == Done
    decreases |steps| - i
  {
    if k > 0 {
      if ends(i) == Done {
        DoneBeforeStop(Effect(w, steps[i].action), steps, i + 1, ends, ran + {KeyOf(steps[i])}, refused, k - 1);
      } else {
        DoneBeforeStop(w, steps, i + 1, ends, ran, refused + [steps[i]], k - 1);
      }
    }
  }

  /** A step of an earlier phase than the one a turn stopped at has run. */
  lemma {:induction false} RanEarlier(w: World, plan: Plan, declaration: Option<string>, luck: Luck, s: Step)
      returns (k: nat)
    requires PhaseSorted(plan.steps) && s in plan.steps && !s.action.WriteRecord?
    requires Turn(w, plan, declaration, luck).ending.StoppedAt?
        && s.phase < Turn(w, plan, declaration, luck).ending.step.phase
    ensures k < |Turn(w, plan, declaration, luck).trace| && Turn(w, plan, declaration, luck).trace[k].step == s
        && luck.commit(k) == Done
  {
    var (staged, ok) := StageFrom(w, plan.files, 0, luck.stage);
    TurnTrace(w, plan, declaration, luck);
    k := PlaceOf(plan.steps, s);
    EarlierPhase(plan.steps, k, |Turn(w, plan, declaration, luck).trace| - 1);
    DoneBeforeStop(Accepting(staged, declaration), plan.steps, 0, luck.commit, {}, [], k);
  }

  /** A turn that replaced the table and stopped in a later phase leaves the new table in the
      kernel, and the ruleset before it in the record. */
  lemma {:induction false} StoppedAfterTheTable(e: Event, w: World)
    requires IsTurn(e) && Install(e) in PlanOf(e, w).steps
    requires ResultOf(e, w).ending.StoppedAt? && FIREWALL < ResultOf(e, w).ending.step.phase
    ensures TableIs(ResultOf(e, w).world, e.rendering.ruleset) && ResultOf(e, w).world.installed == w.installed
  {
    PhasesInOrder(e, w);
    var k := RanEarlier(w, PlanOf(e, w), DeclarationOf(e), e.luck, Install(e));
    PutAt(ResultOf(e, w).trace, e.luck.commit, k, e.rendering.ruleset);
    EventLeaves(e, w);
  }

  lemma {:induction false} PutAt(trace: seq<Attempt>, ends: nat -> Outcome, k: nat, ruleset: Ruleset)
    requires k < |trace| && trace[k].step == InstallStep(ruleset) && ends(k) == Done
    ensures PutIn(trace, ends, 0)
  {
    PutInIs(trace, ends, 0);
    assert Installs(trace[k].step) && ends(0 + k) != Failed;
  }

  /** While there is a table and the record holds the ruleset wanted, no turn changes which
      ruleset is in the kernel, whatever it is. */
  lemma {:induction false} StaleRecordKeepsTheTable(e: Event, w: World)
    requires IsTurn(e) && w.table.Some? && w.installed == Some(e.rendering.ruleset)
    ensures SameRuleset(w, ResultOf(e, w).world) && ResultOf(e, w).world.installed == w.installed
  {
    EventLeaves(e, w);
    PutNeedsStep(e, w);
    PlanKeepsSteps(e, w);
  }

  /** So a turn stopped in a later phase, and then any turn back toward what was there before,
      leave the table of the first. */
  lemma {:induction false} GoingBackKeepsTheTable(there: Event, back: Event, w: World)
    requires IsTurn(there) && IsTurn(back) && Truthful(w) && TableIs(w, back.rendering.ruleset)
    requires there.rendering.ruleset != back.rendering.ruleset && Install(there) in PlanOf(there, w).steps
    requires ResultOf(there, w).ending.StoppedAt? && FIREWALL < ResultOf(there, w).ending.step.phase
    ensures var middle := ResultOf(there, w).world;
            !Truthful(middle) && TableIs(ResultOf(back, middle).world, there.rendering.ruleset)
  {
    StoppedAfterTheTable(there, w);
    StaleRecordKeepsTheTable(back, ResultOf(there, w).world);
  }

  // ----- both happen -----------------------------------------------------------------

  /** A declaration of a ruleset and some switches, and a host that holds a table, and nothing
      else on either side. */
  function Bare(ruleset: Ruleset, switches: seq<Switch>): Rendering {
    Rendering([], {}, [], ruleset, [], switches, [], false, [], [])
  }

  function Plain(ruleset: Ruleset, switches: map<string, string>): World {
    World(map[], map[], {}, switches, Some(Table(ruleset, map[])), {}, {}, map[], None, Some(ruleset), [])
  }

  const ASKED := Probe(true, true, {})
  const ALL_WELL := Luck(_ => true, true, _ => Done, true)
  const SECOND_FAILS := Luck(_ => true, true, (n: nat) => if n == 1 then Failed else Done, true)

  lemma {:induction false} NothingButTheTable(w: World, ruleset: Ruleset, switches: seq<Switch>)
    requires w.disk == map[] && w.owed == [] && w.table.Some?
    ensures var r := Bare(ruleset, switches);
            var plan := PlanFor(r, [], w, ASKED);
            && plan.files == [] && plan.owed == [] && plan.records == [] && plan.failing == []
            && plan.firewall == FirewallChange(ruleset, [], w.installed != Some(ruleset))
            && plan.switches == SwitchChanges(switches, w.switches)
            && plan.steps == FirewallSteps(plan.firewall) + SwitchSteps(plan.switches)
  {
    var r := Bare(ruleset, switches);
    var plan := PlanFor(r, [], w, ASKED);
    assert Files(r, [], w.disk) == [];
    NoProcesses(r, w);
    assert NetworkdSteps(r, [], w.links) == [] && UnitReload([]) == [] && DeferredReclaim([]) == []
        && RecordSteps([]) == [];
    var native := StepsOf(r, [], plan.switches, plan.firewall, [], w, ASKED);
    assert native == FirewallSteps(plan.firewall) + SwitchSteps(plan.switches);
    NoneOwed(FirewallSteps(plan.firewall), plan.switches);
  }

  lemma {:induction false} NoProcesses(r: Rendering, w: World)
    requires r.sessions == [] && !r.dnsmasq
    ensures ProcessSteps(r, [], w, ASKED) == []
  {
    assert SessionNames(r, []) == [];
  }

  lemma {:induction false} NoneOwed(first: seq<Step>, switches: seq<SwitchChange>)
    requires forall s :: s in first ==> !s.owed
    ensures OwedOf(first + SwitchSteps(switches)) == []
  {
    SwitchPart(switches);
    var steps := first + SwitchSteps(switches);
    OwedOfNone(steps);
  }

  lemma {:induction false} OwedOfNone(steps: seq<Step>)
    requires forall s :: s in steps ==> !s.owed || !s.action.Run?
    ensures OwedOf(steps) == []
  {
    if steps != [] {
      assert steps[0] in steps;
      OwedOfNone(steps[1..]);
    }
  }

  /** The turn that is held back, on the smallest host: the table stays the old one, the new
      ruleset is recorded, and no later turn toward it puts it in. */
  lemma {:induction false} HeldBackHappens(before: Ruleset, wanted: Ruleset, later: Event)
    requires before != wanted && IsTurn(later) && later.rendering.ruleset == wanted
    ensures var w := Plain(before, map[]);
            var held := map[Describe(InstallStep(wanted)) := Retry(1, 5)];
            var t := ResultOf(Unattended(Bare(wanted, []), [], ASKED, held, 3, ALL_WELL), w);
            && Truthful(w) && t.ending == Succeeded && TableIs(t.world, before) && t.world.installed == Some(wanted)
            && TableIs(ResultOf(later, t.world).world, before)
  {
    var w := Plain(before, map[]);
    var held := map[Describe(InstallStep(wanted)) := Retry(1, 5)];
    var e := Unattended(Bare(wanted, []), [], ASKED, held, 3, ALL_WELL);
    NothingButTheTable(w, wanted, []);
    InstallIsHeld(e, w);
    OnlyStepHeld(e, w, wanted);
    HeldBackIsRecorded(e, w);
    StaleRecordKeepsTheTable(later, ResultOf(e, w).world);
  }

  lemma {:induction false} OnlyStepHeld(e: Event, w: World, wanted: Ruleset)
    requires e.Unattended? && e.luck == ALL_WELL && FullPlan(e, w).steps == [InstallStep(wanted)]
        && FullPlan(e, w).files == []
    requires Install(e) == InstallStep(wanted) && Install(e) !in PlanOf(e, w).steps && FullPlan(e, w).firewall.apply
    ensures ResultOf(e, w).ending == Succeeded
  {
    PlanKeepsSteps(e, w);
    NothingElse(PlanOf(e, w).steps, InstallStep(wanted));
    assert PlanOf(e, w).files == [];
  }

  lemma {:induction false} NothingElse(steps: seq<Step>, s: Step)
    requires s !in steps && forall t :: t in steps ==> t == s
    ensures steps == []
  {
    if steps != [] { HeadIn(steps); }
  }

  lemma {:induction false} HeadIn(steps: seq<Step>)
    requires steps != []
    ensures exists t :: t in steps
  {
    assert steps[0] in steps;
  }

  /** Going back, on the smallest host: a submitted turn that stops at its switch, and one back
      that succeeds and leaves the table of the first. */
  lemma {:induction false} GoingBackHappens(before: Ruleset, tried: Ruleset)
    requires before != tried
    ensures var w := Plain(before, map["k" := "0"]);
            var there := ResultOf(Attended(Bare(tried, [Switch("k", "1")]), [], ASKED, None, SECOND_FAILS), w);
            var back := ResultOf(Attended(Bare(before, []), [], ASKED, None, ALL_WELL), there.world);
            && Truthful(w) && there.ending.StoppedAt? && back.ending == Succeeded && TableIs(back.world, tried)
  {
    var w := Plain(before, map["k" := "0"]);
    var e := Attended(Bare(tried, [Switch("k", "1")]), [], ASKED, None, SECOND_FAILS);
    NothingButTheTable(w, tried, [Switch("k", "1")]);
    var install, flip := InstallStep(tried), Step(KERNEL, SetSwitch("k", "1"), false);
    assert SwitchSteps(SwitchChanges([Switch("k", "1")], w.switches)) == [flip];
    StopsAtSecond(w, PlanOf(e, w), install, flip);
    StoppedAfterTheTable(e, w);
    var middle := ResultOf(e, w).world;
    MiddleIsBare(w, PlanOf(e, w), install, flip);
    NothingButTheTable(middle, before, []);
    StaleRecordKeepsTheTable(Attended(Bare(before, []), [], ASKED, None, ALL_WELL), middle);
  }

  lemma {:induction false} StopsAtSecond(w: World, plan: Plan, install: Step, flip: Step)
    requires plan.files == [] && plan.steps == [install, flip] && install.action.Run? && flip.action.SetSwitch?
    ensures Turn(w, plan, None, SECOND_FAILS).ending == StoppedAt(flip)
  {
    assert StageFrom(w, plan.files, 0, SECOND_FAILS.stage) == (w, true);
    FirstOfTwo(w, plan.steps);
  }

  lemma {:induction false} FirstOfTwo(w: World, steps: seq<Step>)
    requires |steps| == 2 && steps[1].action.SetSwitch?
    ensures var c := CommitFrom(w, steps, 0, SECOND_FAILS.commit, {}, []);
            c.stopped == Some(steps[1]) && c.world == Effect(w, steps[0].action)
  {
    var ran: set<StepKey> := {} + {KeyOf(steps[0])};
    var rest := CommitFrom(Effect(w, steps[0].action), steps, 1, SECOND_FAILS.commit, ran, []);
    assert rest.stopped == Some(steps[1]) && rest.world == Effect(w, steps[0].action);
    assert SECOND_FAILS.commit(0) == Done && SECOND_FAILS.commit(1) == Failed;
  }

  lemma {:induction false} MiddleIsBare(w: World, plan: Plan, install: Step, flip: Step)
    requires plan.files == [] && plan.steps == [install, flip] && plan.owed == [] && Installs(install)
        && flip.action.SetSwitch?
    requires w.disk == map[]
    ensures var middle := Turn(w, plan, None, SECOND_FAILS).world; middle.disk == map[] && middle.owed == []
  {
    assert CommandEffect(w, install.action.command) == Do(w, DeedOf(install.action.command));
    assert StageFrom(w, plan.files, 0, SECOND_FAILS.stage) == (w, true);
    FirstOfTwo(w, plan.steps);
    NoneLeft(CommitFrom(w, plan.steps, 0, SECOND_FAILS.commit, {}, []).ran);
  }

  lemma {:induction false} NoneLeft(ran: set<StepKey>)
    ensures Unrun([], ran) == [] && Sort(Unrun([], ran), OwedOrder) == []
  {}
}
