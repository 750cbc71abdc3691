/** What a turn has done at every point it can stop at: nothing runs before the record holds
    the submission, the commit is a prefix of the plan, the table is in before a switch is
    set, and no unit goes before what runs from it was stopped. */
module Safety {
  import opened Host
  import opened Planning
  import opened Turns
  import opened OwingFacts
  import opened PlanFacts
  import opened NothingLost

  // ----- the commit is a prefix ------------------------------------------------------

  /** The steps' effects, one after the other. */
  function RunAll(w: World, steps: seq<Step>): World
    decreases |steps|
  {
    if steps == [] then w else RunAll(Effect(w, steps[0].action), steps[1..])
  }

  ghost predicate NoRecords(steps: seq<Step>) {
    forall s :: s in steps ==> !s.action.WriteRecord?
  }

  /** What was tried is a prefix of the steps from i on; everything before the last succeeded, but for
      records; and a commit that was not stopped tried everything. */
  ghost predicate IsPrefix(trace: seq<Attempt>, steps: seq<Step>, i: nat, stopped: Option<Step>) {
    && i + |trace| <= |steps|
    && (forall k :: 0 <= k < |trace| ==> trace[k].step == steps[i + k])
    && (forall k :: 0 <= k < |trace| ==>
          trace[k].ok || trace[k].step.action.WriteRecord? || (stopped.Some? && k == |trace| - 1))
    && (stopped.None? ==> i + |trace| == |steps|)
    && (stopped.Some? ==> trace != [] && trace[|trace| - 1].step == stopped.value && !trace[|trace| - 1].ok)
  }

  lemma {:induction false} CommitIsPrefix(w: World, steps: seq<Step>, i: nat, ends: nat -> Outcome, ran: set<StepKey>,
      refused: seq<Step>)
    requires i <= |steps|
    ensures var c := CommitFrom(w, steps, i, ends, ran, refused); IsPrefix(c.trace, steps, i, c.stopped)
    decreases |steps| - i
  {
    if i < |steps| {
      var next, key := AfterStep(w, steps[i], ends(i)), KeyOf(steps[i]);
      var attempt := Attempt(steps[i], w, ends(i) == Done);
      if ends(i) == Done {
        CommitIsPrefix(next, steps, i + 1, ends, ran + {key}, refused);
        var rest := CommitFrom(next, steps, i + 1, ends, ran + {key}, refused);
      } else if steps[i].action.WriteRecord? {
        CommitIsPrefix(w, steps, i + 1, ends, ran, refused + [steps[i]]);
        var rest := CommitFrom(w, steps, i + 1, ends, ran, refused + [steps[i]]);
      }
    }
  }

  /** Of k steps from i on, those that ended well. */
  function DoneSteps(steps: seq<Step>, i: nat, k: nat, ends: nat -> Outcome): seq<Step>
    requires i + k <= |steps|
    decreases k
  {
    if k == 0 then [] else (if ends(i) == Done then [steps[i]] else []) + DoneSteps(steps, i + 1, k - 1, ends)
  }

  /** Each step is tried in exactly the world made by the steps before it that ended well: what
      a refused record did not do is not there, and nothing else is missing. */
  lemma {:induction false} CommitWorlds(w: World, steps: seq<Step>, i: nat, ends: nat -> Outcome, ran: set<StepKey>,
      refused: seq<Step>, k: nat)
    requires i <= |steps| && k < |CommitFrom(w, steps, i, ends, ran, refused).trace|
    ensures i + k < |steps|
    ensures CommitFrom(w, steps, i, ends, ran, refused).trace[k].before == RunAll(w, DoneSteps(steps, i, k, ends))
    decreases |steps| - i
  {
    if k > 0 {
      var s := steps[i];
      if ends(i) == Done {
        CommitWorlds(Effect(w, s.action), steps, i + 1, ends, ran + {KeyOf(s)}, refused, k - 1);
        var rest := DoneSteps(steps, i + 1, k - 1, ends);
        assert ([s] + rest)[1..] == rest;
      } else {
        CommitWorlds(w, steps, i + 1, ends, ran, refused + [s], k - 1);
        assert [] + DoneSteps(steps, i + 1, k - 1, ends) == DoneSteps(steps, i + 1, k - 1, ends);
      }
    }
  }

  lemma {:induction false} AllDone(w: World, steps: seq<Step>, i: nat, ends: nat -> Outcome, ran: set<StepKey>,
      refused: seq<Step>, k: nat)
    requires i <= |steps| && k < |CommitFrom(w, steps, i, ends, ran, refused).trace|
    requires i + k <= |steps| && NoRecords(steps[i..i + k])
    ensures DoneSteps(steps, i, k, ends) == steps[i..i + k]
    decreases |steps| - i
  {
    if k > 0 {
      assert steps[i] in steps[i..i + k] by { assert steps[i..i + k][0] == steps[i]; }
      assert ends(i) == Done;
      assert steps[i..i + k] == [steps[i]] + steps[i + 1..i + 1 + (k - 1)];
      AllDone(Effect(w, steps[i].action), steps, i + 1, ends, ran + {KeyOf(steps[i])}, refused, k - 1);
    }
  }

  // ----- the record comes first ------------------------------------------------------

  lemma {:induction false} CommitKeepsRecord(w: World, steps: seq<Step>, i: nat, ends: nat -> Outcome,
      ran: set<StepKey>, refused: seq<Step>)
    requires i <= |steps|
    ensures var c := CommitFrom(w, steps, i, ends, ran, refused);
            c.world.accepted == w.accepted
            && (forall k :: 0 <= k < |c.trace| ==> c.trace[k].before.accepted == w.accepted)
    decreases |steps| - i
  {
    if i < |steps| {
      if ends(i) == Done {
        CommitKeepsRecord(Effect(w, steps[i].action), steps, i + 1, ends, ran + {KeyOf(steps[i])}, refused);
      } else if steps[i].action.WriteRecord? {
        CommitKeepsRecord(w, steps, i + 1, ends, ran, refused + [steps[i]]);
      }
    }
  }

  lemma {:induction false} StageKeepsRecord(w: World, files: seq<FileChange>, i: nat, ok: nat -> bool)
    requires i <= |files|
    ensures StageFrom(w, files, i, ok).0.accepted == w.accepted
    decreases |files| - i
  {
    if i < |files| && !(Touches(files[i]) && !ok(i)) { StageKeepsRecord(StageOne(w, files[i]), files, i + 1, ok); }
  }

  /** The record moves exactly when a submission gets past staging, and then to exactly the
      submitted bytes; nothing has run by then, and every command runs under that record. */
  lemma {:induction false} RecordBeforeCommands(w: World, plan: Plan, declaration: Option<string>, luck: Luck)
    ensures var t := Turn(w, plan, declaration, luck);
            && (t.wasAccepted <==> declaration.Some? && t.ending != StoppedInStaging)
            && t.world.accepted == (if t.wasAccepted then declaration else w.accepted)
            && (t.ending == StoppedInStaging ==> t.trace == [])
            && forall k :: 0 <= k < |t.trace| ==>
                  t.trace[k].before.accepted == (if declaration.Some? then declaration else w.accepted)
  {
    if !Empty(plan) {
      StageKeepsRecord(w, plan.files, 0, luck.stage);
      var (staged, ok) := StageFrom(w, plan.files, 0, luck.stage);
      if ok && CanAccept(staged, declaration, luck) {
        CommitKeepsRecord(Accepting(staged, declaration), plan.steps, 0, luck.commit, {}, []);
      }
    }
  }

  // ----- the table is in before a switch is set --------------------------------------

  predicate Installs(s: Step) {
    s.action.Run? && s.action.command.name == "nft" && s.action.command.stdin.RulesetInput?
  }

  ghost predicate OnlyInstalls(steps: seq<Step>, ruleset: Ruleset) {
    forall s :: s in steps && Installs(s) ==> s.action.command.stdin.ruleset == ruleset
  }

  ghost predicate TableIs(w: World, ruleset: Ruleset) { w.table.Some? && w.table.value.ruleset == ruleset }

  lemma {:induction false} TableStays(w: World, steps: seq<Step>, ruleset: Ruleset)
    requires OnlyInstalls(steps, ruleset)
    requires TableIs(w, ruleset) || exists s :: s in steps && Installs(s)
    ensures TableIs(RunAll(w, steps), ruleset)
    decreases |steps|
  {
    if steps != [] {
      var next := Effect(w, steps[0].action);
      assert steps == [steps[0]] + steps[1..];
      assert OnlyInstalls(steps[1..], ruleset);
      assert Installs(steps[0]) || TableIs(w, ruleset) ==> TableIs(next, ruleset);
      TableStays(next, steps[1..], ruleset);
    }
  }

  /** Tables come from this ruleset, switches are set in the kernel phase and records last. */
  ghost predicate InPlace(steps: seq<Step>, ruleset: Ruleset) {
    && OnlyInstalls(steps, ruleset)
    && (forall s :: s in steps && s.action.SetSwitch? ==> s.phase == KERNEL)
    && (forall s :: s in steps && s.action.WriteRecord? ==> s.phase == DNS)
  }

  lemma {:induction false} NetworkdInPlace(r: Rendering, files: seq<FileChange>, links: set<string>, ruleset: Ruleset)
    ensures InPlace(NetworkdSteps(r, files, links), ruleset)
  {
    TriggerPart(r.linkFiles, files, links);
  }

  lemma {:induction false} ProcessInPlace(r: Rendering, files: seq<FileChange>, w: World, probe: Probe,
      ruleset: Ruleset)
    ensures InPlace(ProcessSteps(r, files, w, probe), ruleset)
  {
    ProcessPart(r, files, w, probe);
  }

  lemma {:induction false} LateInPlace(files: seq<FileChange>, records: seq<RecordChange>, ruleset: Ruleset)
    ensures InPlace(DeferredReclaim(files), ruleset) && InPlace(RecordSteps(records), ruleset)
  {
    RemovalPart(files);
    RecordPart(records);
  }

  lemma {:induction false} SimpleInPlace(files: seq<FileChange>, switches: seq<SwitchChange>, f: FirewallChange)
    ensures InPlace(FirewallSteps(f), f.ruleset) && InPlace(SwitchSteps(switches), f.ruleset)
        && InPlace(UnitReload(files), f.ruleset)
  {
    SwitchPart(switches);
  }

  lemma {:induction false} EarlyInPlace(r: Rendering, files: seq<FileChange>, switches: seq<SwitchChange>,
      f: FirewallChange, w: World, probe: Probe)
    ensures InPlace(EarlySteps(r, files, switches, f, w, probe), f.ruleset)
  {
    SimpleInPlace(files, switches, f);
    NetworkdInPlace(r, files, w.links, f.ruleset);
    ProcessInPlace(r, files, w, probe, f.ruleset);
  }

  lemma {:induction false} StepsInPlace(r: Rendering, files: seq<FileChange>, switches: seq<SwitchChange>,
      f: FirewallChange, records: seq<RecordChange>, w: World, probe: Probe)
    ensures InPlace(StepsOf(r, files, switches, f, records, w, probe), f.ruleset)
  {
    EarlyInPlace(r, files, switches, f, w, probe);
    LateInPlace(files, records, f.ruleset);
    var early := EarlySteps(r, files, switches, f, w, probe);
  }

  function InstallStep(ruleset: Ruleset): Step { Step(FIREWALL, Run(NftCommand(RulesetInput(ruleset))), false) }

  /** Where each kind of step comes from, in the plan as a whole. */
  lemma {:induction false} PlanInPlace(r: Rendering, listing: seq<Path>, w: World, probe: Probe)
    ensures var plan := PlanFor(r, listing, w, probe);
            InPlace(plan.steps, r.ruleset) && (plan.firewall.apply ==> InstallStep(r.ruleset) in plan.steps)
  {
    var plan := PlanFor(r, listing, w, probe);
    var files, switches, f, records := plan.files, plan.switches, plan.firewall, plan.records;
    var steps := StepsOf(r, files, switches, f, records, w, probe);
    StepsInPlace(r, files, switches, f, records, w, probe);
    AddOwedGrows(Owing(steps, OwedOf(steps)), w.owed, w.links);
    assert forall s :: s in plan.steps ==> s in steps || (s.action.Run? && !s.action.command.stdin.RulesetInput?);
    assert f.apply ==> InstallStep(r.ruleset) in FirewallSteps(f);
  }

  lemma {:induction false} EarlierByPhase(steps: seq<Step>, i: nat, s: Step)
    requires PhaseSorted(steps) && i < |steps| && s in steps && s.phase < steps[i].phase
    ensures s in steps[..i]
  {
    var j :| 0 <= j < |steps| && steps[j] == s;
    assert steps[..i][j] == s;
  }

  lemma {:induction false} TableInCommit(w: World, steps: seq<Step>, ends: nat -> Outcome, ruleset: Ruleset, k: nat)
    requires PhaseSorted(steps) && InPlace(steps, ruleset) && InstallStep(ruleset) in steps
    requires k < |CommitFrom(w, steps, 0, ends, {}, []).trace|
    requires CommitFrom(w, steps, 0, ends, {}, []).trace[k].step.action.SetSwitch?
    ensures TableIs(CommitFrom(w, steps, 0, ends, {}, []).trace[k].before, ruleset)
  {
    CommitIsPrefix(w, steps, 0, ends, {}, []);
    assert CommitFrom(w, steps, 0, ends, {}, []).trace[k].step == steps[0 + k];
    assert steps[k] in steps;
    assert steps[0..0 + k] == steps[..k];
    CommitWorlds(w, steps, 0, ends, {}, [], k);
    AllDone(w, steps, 0, ends, {}, [], k);
    EarlierByPhase(steps, k, InstallStep(ruleset));
    assert OnlyInstalls(steps[..k], ruleset);
    TableStays(w, steps[..k], ruleset);
  }

  /** No attended turn reaches a kernel switch before the table it wants is in the kernel. */
  lemma {:induction false} TableBeforeSwitches(r: Rendering, listing: seq<Path>, w: World, probe: Probe,
      declaration: Option<string>, luck: Luck, k: nat)
    requires var plan := PlanFor(r, listing, w, probe);
             plan.firewall.apply && k < |Turn(w, plan, declaration, luck).trace|
             && Turn(w, plan, declaration, luck).trace[k].step.action.SetSwitch?
    ensures TableIs(Turn(w, PlanFor(r, listing, w, probe), declaration, luck).trace[k].before, r.ruleset)
  {
    var plan := PlanFor(r, listing, w, probe);
    var (staged, ok) := StageFrom(w, plan.files, 0, luck.stage);
    PlanIsSound(r, listing, w, probe);
    PlanInPlace(r, listing, w, probe);
    TableInCommit(Accepting(staged, declaration), plan.steps, luck.commit, r.ruleset, k);
  }

  // ----- stops before removals -------------------------------------------------------

  predicate IsStop(s: Step) {
    s.action.Run? && s.action.command.name == "systemctl" && |s.action.command.args| == 3
    && s.action.command.args[0] == "disable" && s.action.command.args[1] == "--now"
  }

  ghost predicate StopsFirst(steps: seq<Step>) {
    forall i, j :: 0 <= i < |steps| && 0 <= j < |steps| && steps[i].action.RemoveFile? && IsStop(steps[j]) ==> j < i
  }

  lemma {:induction false} InsertKeepsStops(steps: seq<Step>, step: Step)
    requires StopsFirst(steps) && !step.action.RemoveFile? && !IsStop(step)
    ensures StopsFirst(InsertStep(steps, step))
  {
    var at := InsertAt(steps, step);
    var more := InsertStep(steps, step);
    forall i, j | 0 <= i < |more| && 0 <= j < |more| && more[i].action.RemoveFile? && IsStop(more[j]) ensures j < i {
      var i', j' := if i < at then i else i - 1, if j < at then j else j - 1;
      assert steps[i'].action.RemoveFile? && IsStop(steps[j']);
    }
  }

  lemma {:induction false} AddOwedKeepsStops(at: Owing, owed: seq<OwedStep>, links: set<string>)
    requires StopsFirst(at.steps)
    ensures StopsFirst(AddOwed(at, owed, links).steps)
    decreases |owed|
  {
    if owed != [] {
      if Skipped(owed[0], at.steps, links) {
        AddOwedKeepsStops(at, owed[1..], links);
      } else {
        InsertKeepsStops(at.steps, StepFor(owed[0]));
        AddOwedKeepsStops(Owing(InsertStep(at.steps, StepFor(owed[0])), at.owed + [owed[0]]), owed[1..], links);
      }
    }
  }

  lemma {:induction false} StopsJoin(a: seq<Step>, b: seq<Step>)
    requires forall s :: s in a ==> !s.action.RemoveFile?
    requires forall s :: s in b ==> !IsStop(s)
    ensures StopsFirst(a + b)
  {
    assert forall i :: 0 <= i < |a| ==> !a[i].action.RemoveFile?;
    assert forall j :: 0 <= j < |b| ==> !IsStop(b[j]);
  }

  lemma {:induction false} PlanStopsFirst(r: Rendering, listing: seq<Path>, w: World, probe: Probe)
    ensures StopsFirst(PlanFor(r, listing, w, probe).steps)
  {
    var plan := PlanFor(r, listing, w, probe);
    var files, switches, f, records := plan.files, plan.switches, plan.firewall, plan.records;
    var early, rest := EarlySteps(r, files, switches, f, w, probe), DeferredReclaim(files) + RecordSteps(records);
    var steps := StepsOf(r, files, switches, f, records, w, probe);
    EarlyPart(r, files, switches, f, w, probe);
    NoStopsLate(files, records);
    assert steps == early + rest;
    StopsJoin(early, rest);
    AddOwedKeepsStops(Owing(steps, OwedOf(steps)), w.owed, w.links);
  }

  lemma {:induction false} NoStopsLate(files: seq<FileChange>, records: seq<RecordChange>)
    ensures forall s :: s in DeferredReclaim(files) + RecordSteps(records) ==> !IsStop(s)
  {
    RemovalPart(files);
    RecordPart(records);
  }

  /** Whatever the commit reached: when a unit's removal is tried, every stop the plan holds
      has been tried before it and has succeeded. */
  lemma {:induction false} StopsBeforeRemovals(r: Rendering, listing: seq<Path>, w: World, probe: Probe,
      declaration: Option<string>, luck: Luck, k: nat, stop: Step)
    requires var plan := PlanFor(r, listing, w, probe);
             && k < |Turn(w, plan, declaration, luck).trace|
             && Turn(w, plan, declaration, luck).trace[k].step.action.RemoveFile?
             && stop in plan.steps && IsStop(stop)
    ensures var trace := Turn(w, PlanFor(r, listing, w, probe), declaration, luck).trace;
            exists m :: 0 <= m < k && trace[m].step == stop && trace[m].ok
  {
    var plan := PlanFor(r, listing, w, probe);
    var (staged, ok) := StageFrom(w, plan.files, 0, luck.stage);
    var start := Accepting(staged, declaration);
    PlanStopsFirst(r, listing, w, probe);
    CommitIsPrefix(start, plan.steps, 0, luck.commit, {}, []);
    var j :| 0 <= j < |plan.steps| && plan.steps[j] == stop;
    var trace := Turn(w, plan, declaration, luck).trace;
    assert trace[k].step == plan.steps[0 + k];
    assert j < k;
    assert trace[j].step == stop && trace[j].ok;
  }

  /** Every turn tries exactly a prefix of its plan's steps, which are in phase order. */
  lemma {:induction false} TurnIsPrefix(e: Event, w: World)
    requires e.Attended? || e.Unattended?
    ensures var (plan, t) := (PlanOf(e, w), ResultOf(e, w));
            && |t.trace| <= |plan.steps|
            && (forall k :: 0 <= k < |t.trace| ==> t.trace[k].step == plan.steps[k])
            && (t.ending.StoppedAt? ==> t.trace != [] && t.trace[|t.trace| - 1].step == t.ending.step)
            && (t.ending == Succeeded ==> |t.trace| == |plan.steps|)
  {
    TurnTrace(w, PlanOf(e, w), DeclarationOf(e), e.luck);
  }

  lemma {:induction false} TurnTrace(w: World, plan: Plan, declaration: Option<string>, luck: Luck)
    ensures var t := Turn(w, plan, declaration, luck);
            && |t.trace| <= |plan.steps|
            && (forall k :: 0 <= k < |t.trace| ==> t.trace[k].step == plan.steps[k])
            && (t.ending.StoppedAt? ==> t.trace != [] && t.trace[|t.trace| - 1].step == t.ending.step)
            && (t.ending == Succeeded ==> |t.trace| == |plan.steps|)
  {
    if !Empty(plan) {
      var (staged, ok) := StageFrom(w, plan.files, 0, luck.stage);
      CommitIsPrefix(Accepting(staged, declaration), plan.steps, 0, luck.commit, {}, []);
    }
  }

  lemma {:induction false} FilterSorted(steps: seq<Step>, i: nat, now: int, at: Filtered)
    requires i <= |steps| && PhaseSorted(steps) && PhaseSorted(at.kept)
    requires forall s :: s in at.kept ==> forall k :: i <= k < |steps| ==> s.phase <= steps[k].phase
    ensures PhaseSorted(Filter(steps, i, now, at).kept)
    decreases |steps| - i
  {
    if i < |steps| {
      var step, name := steps[i], Describe(steps[i]);
      if UnattendedForbidden(step) {
        FilterSorted(steps, i + 1, now, at.(dropped := at.dropped + [Forbidden(step)]));
      } else if Held(at.retries, name, now) {
        FilterSorted(steps, i + 1, now, at.(dropped := at.dropped + [HeldBack(step)], present := at.present + {name}));
      } else {
        SortedJoin(at.kept, [step], step.phase);
        FilterSorted(steps, i + 1, now, Filtered(at.kept + [step], at.dropped,
          at.retries[name := NextRetry(at.retries, name, now)], at.present + {name}));
      }
    }
  }

  /** Submitted or not, filtered or not, the steps of a plan are in the order of the phases. */
  lemma {:induction false} PhasesInOrder(e: Event, w: World)
    requires e.Attended? || e.Unattended?
    ensures PhaseSorted(PlanOf(e, w).steps)
  {
    PlanIsSound(e.rendering, e.listing, w, e.probe);
    if e.Unattended? {
      FilterSorted(PlanFor(e.rendering, e.listing, w, e.probe).steps, 0, e.now, Filtered([], [], e.retries, {}));
    }
  }

  // ----- acceptance ------------------------------------------------------------------

  /** A turn past staging is refused exactly when it submits another declaration than is recorded
      and that cannot be written. */
  lemma {:induction false} RefusedExactly(w: World, plan: Plan, declaration: Option<string>, luck: Luck)
    requires StageFrom(w, plan.files, 0, luck.stage).1
    ensures Turn(w, plan, declaration, luck).ending == StoppedInStaging <==>
              declaration.Some? && w.accepted != declaration && !luck.accept
  {
    StageKeepsRecord(w, plan.files, 0, luck.stage);
  }

  /** A turn that cannot stage every file runs no command, and records nothing. */
  lemma {:induction false} UnstagedRunsNothing(w: World, plan: Plan, declaration: Option<string>, luck: Luck)
    requires !StageFrom(w, plan.files, 0, luck.stage).1
    ensures var t := Turn(w, plan, declaration, luck);
            t.ending == StoppedInStaging && t.trace == [] && t.world.accepted == w.accepted
  {
    StageKeepsRecord(w, plan.files, 0, luck.stage);
    if Empty(plan) { NothingToStage(w, plan.files, 0, luck.stage); }
  }

  lemma {:induction false} NothingToStage(w: World, files: seq<FileChange>, i: nat, ok: nat -> bool)
    requires i <= |files| && forall c :: c in files ==> c.kind == Unchanged
    ensures StageFrom(w, files, i, ok) == (w, true)
    decreases |files| - i
  {
    if i < |files| {
      assert files[i] in files;
      NothingToStage(w, files, i + 1, ok);
    }
  }
}
