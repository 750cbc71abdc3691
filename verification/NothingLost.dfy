/** Whatever a turn leaves unread by its reader, the file of owed steps says so: over every
    run of turns, whatever fails, whatever is held back, and whoever else edits the files. */
module NothingLost {
  import opened Orders
  import opened Host
  import opened Planning
  import opened Turns
  import opened OwingFacts
  import opened PlanFacts

  /** The reader of the file has something of regied's to read that it has not read. */
  ghost predicate Unread(w: World, p: Path) {
    ReaderOf(p).Some? && p !in w.foreign && !Agrees(w, p)
  }

  /** A daemon that has not read what regied last wrote has its reload in the owed file. */
  ghost predicate Kept(w: World) {
    forall p :: Unread(w, p) ==> AsksFor(w.owed, ReaderOf(p).value)
  }

  // ----- within a turn ---------------------------------------------------------------

  ghost predicate StillAsked(owed: seq<OwedStep>, ran: set<StepKey>, d: Daemon) {
    exists o :: o in owed && Reloads(o, d) && OwedKey(o) !in ran
  }

  ghost predicate Covered(w: World, owed: seq<OwedStep>, ran: set<StepKey>) {
    forall p :: Unread(w, p) ==> StillAsked(owed, ran, ReaderOf(p).value)
  }

  lemma {:induction false} ReadAgainSettles(w: World, d: Daemon, p: Path)
    ensures ReaderOf(p) == Some(d) ==> !Unread(ReadAgain(w, d), p)
    ensures ReaderOf(p) != Some(d) ==> (Unread(ReadAgain(w, d), p) <==> Unread(w, p))
  {}

  predicate IsReload(step: Step, d: Daemon) {
    step.action.Run? && Describe(step) == CommandName(ReloadOf(d).name, ReloadOf(d).args)
  }

  lemma {:induction false} ReloadEffect(w: World, step: Step, d: Daemon)
    requires IsReload(step, d)
    ensures Effect(w, step.action) == ReadAgain(w, d)
  {}

  /** A step that is no daemon's reload and takes nothing away leaves every file as it was. */
  lemma {:induction false} OtherEffect(w: World, step: Step)
    requires !step.action.RemoveFile? && forall d: Daemon :: !IsReload(step, d)
    ensures var e := Effect(w, step.action); e.disk == w.disk && e.seen == w.seen && e.foreign == w.foreign
  {
    assert !IsReload(step, Networkd) && !IsReload(step, Udev) && !IsReload(step, Systemd);
  }

  lemma {:induction false} StillAskedAfter(step: Step, owed: seq<OwedStep>, ran: set<StepKey>, d: Daemon)
    requires StillAsked(owed, ran, d) && !IsReload(step, d)
    ensures StillAsked(owed, ran + {KeyOf(step)}, d)
  {
    var o :| o in owed && Reloads(o, d) && OwedKey(o) !in ran;
    assert OwedKey(o) != KeyOf(step);
  }

  lemma {:induction false} RunCovers(w: World, step: Step, owed: seq<OwedStep>, ran: set<StepKey>)
    requires Covered(w, owed, ran) && !step.action.RemoveFile?
    ensures Covered(Effect(w, step.action), owed, ran + {KeyOf(step)})
  {
    var next := Effect(w, step.action);
    forall p | Unread(next, p) ensures StillAsked(owed, ran + {KeyOf(step)}, ReaderOf(p).value) {
      if d: Daemon :| IsReload(step, d) {
        ReloadEffect(w, step, d);
        ReadAgainSettles(w, d, p);
      } else {
        OtherEffect(w, step);
      }
      assert Unread(w, p);
      StillAskedAfter(step, owed, ran, ReaderOf(p).value);
    }
  }

  lemma {:induction false} FewerRan(w: World, owed: seq<OwedStep>, more: set<StepKey>, ran: set<StepKey>)
    requires Covered(w, owed, more) && ran <= more
    ensures Covered(w, owed, ran)
  {
    forall p | Unread(w, p) ensures StillAsked(owed, ran, ReaderOf(p).value) {
      assert StillAsked(owed, more, ReaderOf(p).value);
    }
  }

  ghost predicate LateUnrun(steps: seq<Step>, i: nat, ran: set<StepKey>)
    requires i <= |steps|
  {
    (exists k :: i <= k < |steps| && steps[k].action.RemoveFile?) ==> OwedKey(LATE_RELOAD) !in ran
  }

  lemma {:induction false} StepCovers(w: World, steps: seq<Step>, i: nat, owed: seq<OwedStep>, ran: set<StepKey>)
    requires i < |steps| && Covered(w, owed, ran) && RemovalsFirst(steps, owed) && LateUnrun(steps, i, ran)
    ensures Covered(Effect(w, steps[i].action), owed, ran + {KeyOf(steps[i])})
    ensures LateUnrun(steps, i + 1, ran + {KeyOf(steps[i])}) && LateUnrun(steps, i + 1, ran)
  {
    if steps[i].action.RemoveFile? {
      assert RemovalAt(steps, owed, i);
    } else {
      RunCovers(w, steps[i], owed, ran);
    }
    if k :| i + 1 <= k < |steps| && steps[k].action.RemoveFile? {
      assert RemovalAt(steps, owed, k);
      assert KeyOf(steps[i]) != OwedKey(LATE_RELOAD);
    }
  }

  lemma {:induction false} CommitCovers(w: World, steps: seq<Step>, i: nat, ends: nat -> Outcome, ran: set<StepKey>,
      refused: seq<Step>, owed: seq<OwedStep>)
    requires i <= |steps| && Covered(w, owed, ran) && RemovalsFirst(steps, owed) && LateUnrun(steps, i, ran)
    ensures var c := CommitFrom(w, steps, i, ends, ran, refused); Covered(c.world, owed, c.ran)
    decreases |steps| - i
  {
    if i < |steps| {
      var step := steps[i];
      StepCovers(w, steps, i, owed, ran);
      FewerRan(Effect(w, step.action), owed, ran + {KeyOf(step)}, ran);
      if ends(i) == Done {
        CommitCovers(Effect(w, step.action), steps, i + 1, ends, ran + {KeyOf(step)}, refused, owed);
      } else if step.action.WriteRecord? {
        CommitCovers(w, steps, i + 1, ends, ran, refused + [step], owed);
      }
    }
  }

  lemma {:induction false} StageCovers(w: World, files: seq<FileChange>, i: nat, ok: nat -> bool, owed: seq<OwedStep>)
    requires i <= |files| && Covered(w, owed, {}) && ReadersTold(files, owed)
    ensures Covered(StageFrom(w, files, i, ok).0, owed, {})
    decreases |files| - i
  {
    if i < |files| && !(Touches(files[i]) && !ok(i)) {
      var next := StageOne(w, files[i]);
      forall p | Unread(next, p) ensures StillAsked(owed, {}, ReaderOf(p).value) {
        if p == files[i].path && Touches(files[i]) {
          assert AsksFor(owed, ReaderOf(p).value);
        } else {
          assert Unread(w, p);
        }
      }
      StageCovers(next, files, i + 1, ok, owed);
    }
  }

  lemma {:induction false} UnrunMembers(owed: seq<OwedStep>, ran: set<StepKey>)
    ensures forall o :: o in Unrun(owed, ran) <==> o in owed && OwedKey(o) !in ran
  {
    if owed != [] {
      UnrunMembers(owed[1..], ran);
      assert owed == [owed[0]] + owed[1..];
    }
  }

  lemma {:induction false} SettleKeeps(w: World, owed: seq<OwedStep>, ran: set<StepKey>)
    requires Covered(w, owed, ran)
    ensures Kept(Settle(w, owed, ran))
  {
    var settled := Settle(w, owed, ran);
    UnrunMembers(owed, ran);
    SortKeeps(Unrun(owed, ran), OwedOrder);
    forall p | Unread(settled, p) ensures AsksFor(settled.owed, ReaderOf(p).value) {
      assert Unread(w, p);
      assert StillAsked(owed, ran, ReaderOf(p).value);
      var o :| o in owed && Reloads(o, ReaderOf(p).value) && OwedKey(o) !in ran;
      assert o in settled.owed;
    }
  }

  // ----- a turn ----------------------------------------------------------------------

  /** What a plan has to promise for a turn over it to lose nothing. */
  ghost predicate Answers(w: World, plan: Plan) {
    && ReadersTold(plan.files, plan.owed)
    && RemovalsFirst(plan.steps, plan.owed)
    && forall o, d :: o in w.owed && Reloads(o, d) ==> AsksFor(plan.owed, d)
  }

  lemma {:induction false} TurnKeeps(w: World, plan: Plan, declaration: Option<string>, luck: Luck)
    requires Kept(w) && Answers(w, plan)
    ensures Kept(Turn(w, plan, declaration, luck).world)
  {
    var (result, ran) := StageAndCommit(w, plan, declaration, luck);
    assert Covered(result.world, plan.owed, ran) by {
      if !Empty(plan) {
        StageCovers(w, plan.files, 0, luck.stage, plan.owed);
        var (staged, ok) := StageFrom(w, plan.files, 0, luck.stage);
        if ok && CanAccept(staged, declaration, luck) {
          var start := Accepting(staged, declaration);
          assert forall p :: Unread(start, p) <==> Unread(staged, p);
          CommitCovers(start, plan.steps, 0, luck.commit, {}, [], plan.owed);
          var c := CommitFrom(start, plan.steps, 0, luck.commit, {}, []);
          assert forall p :: Unread(result.world, p) <==> Unread(c.world, p);
        }
      } else {
        assert forall p :: Unread(result.world, p) <==> Unread(w, p);
      }
    }
    SettleKeeps(result.world, plan.owed, ran);
  }

  // ----- the filter of an unattended turn --------------------------------------------

  lemma {:induction false} FilterKeeps(steps: seq<Step>, i: nat, now: int, at: Filtered)
    requires i <= |steps|
    requires forall s :: s in at.kept ==> s in steps && !UnattendedForbidden(s)
    ensures forall s :: s in Filter(steps, i, now, at).kept ==> s in steps && !UnattendedForbidden(s)
    decreases |steps| - i
  {
    if i < |steps| {
      var step, name := steps[i], Describe(steps[i]);
      if UnattendedForbidden(step) {
        FilterKeeps(steps, i + 1, now, at.(dropped := at.dropped + [Forbidden(step)]));
      } else if Held(at.retries, name, now) {
        FilterKeeps(steps, i + 1, now, at.(dropped := at.dropped + [HeldBack(step)], present := at.present + {name}));
      } else {
        FilterKeeps(steps, i + 1, now, Filtered(at.kept + [step], at.dropped,
          at.retries[name := NextRetry(at.retries, name, now)], at.present + {name}));
      }
    }
  }

  lemma {:induction false} UnattendedAnswers(w: World, plan: Plan, retries: map<Name, Retry>, now: int)
    requires Answers(w, plan)
    ensures Answers(w, UnattendedPlan(plan, retries, now).0)
  {
    var filtered := UnattendedPlan(plan, retries, now).0;
    FilterKeeps(plan.steps, 0, now, Filtered([], [], retries, {}));
    forall i | 0 <= i < |filtered.steps| ensures !filtered.steps[i].action.RemoveFile? {
      assert filtered.steps[i] in filtered.steps;
    }
    forall c | c in filtered.files && c.kind != Unchanged && ReaderOf(c.path).Some?
      ensures AsksFor(filtered.owed, ReaderOf(c.path).value)
    {
      var i :| 0 <= i < |filtered.files| && filtered.files[i] == c;
      assert plan.files[i] in plan.files;
    }
  }

  lemma {:induction false} PlanAnswers(r: Rendering, listing: seq<Path>, w: World, probe: Probe)
    ensures Answers(w, PlanFor(r, listing, w, probe))
  {
    PlanIsSound(r, listing, w, probe);
  }

  // ----- runs ------------------------------------------------------------------------

  /** What can happen between one moment and the next. An attended turn submits a
      declaration, tries one, or runs toward the record; a plan that cannot be made changes
      nothing and is not an event. */
  datatype Event =
    | Attended(rendering: Rendering, listing: seq<Path>, probe: Probe, declaration: Option<string>, luck: Luck)
    | Unattended(rendering: Rendering, listing: seq<Path>, probe: Probe,
        retries: map<Name, Retry>, now: int, luck: Luck)
    | Edited(path: Path, content: Option<Content>)   // somebody else wrote or removed a file
    | ReadByItself(daemon: Daemon)                   // a daemon read its files again, at a boot or on its own
    | Elsewhere(after: World)                        // anything that touches no file and not what is owed

  function PlanOf(e: Event, w: World): Plan
    requires e.Attended? || e.Unattended?
  {
    if e.Attended? then PlanFor(e.rendering, e.listing, w, e.probe)
    else UnattendedPlan(PlanFor(e.rendering, e.listing, w, e.probe), e.retries, e.now).0
  }

  function DeclarationOf(e: Event): Option<string> { if e.Attended? then e.declaration else None }

  function ResultOf(e: Event, w: World): TurnResult
    requires e.Attended? || e.Unattended?
  {
    Turn(w, PlanOf(e, w), DeclarationOf(e), e.luck)
  }

  function Edit(w: World, p: Path, content: Option<Content>): World {
    w.(disk := if content.Some? then w.disk[p := content.value] else w.disk - {p}, foreign := w.foreign + {p})
  }

  ghost predicate Happens(w: World, e: Event, next: World) {
    match e
    case Attended(_, _, _, _, _) => next == ResultOf(e, w).world
    case Unattended(_, _, _, _, _, _) => next == ResultOf(e, w).world
    case Edited(p, content) => next == Edit(w, p, content)
    case ReadByItself(d) => next == ReadAgain(w, d)
    case Elsewhere(after) =>
      next == after && after.disk == w.disk && after.seen == w.seen
      && after.foreign == w.foreign && after.owed == w.owed
  }

  ghost predicate Run(worlds: seq<World>, events: seq<Event>) {
    |worlds| == |events| + 1 && forall i :: 0 <= i < |events| ==> Happens(worlds[i], events[i], worlds[i + 1])
  }

  lemma {:induction false} EventKeeps(w: World, e: Event, next: World)
    requires Kept(w) && Happens(w, e, next)
    ensures Kept(next)
  {
    match e
    case Attended(r, listing, probe, declaration, luck) =>
      PlanAnswers(r, listing, w, probe);
      TurnKeeps(w, PlanOf(e, w), declaration, luck);
    case Unattended(r, listing, probe, retries, now, luck) =>
      PlanAnswers(r, listing, w, probe);
      UnattendedAnswers(w, PlanFor(r, listing, w, probe), retries, now);
      TurnKeeps(w, PlanOf(e, w), None, luck);
    case Edited(p, content) =>
      forall q | Unread(next, q) ensures AsksFor(next.owed, ReaderOf(q).value) { assert Unread(w, q); }
    case ReadByItself(d) =>
      forall q | Unread(next, q) ensures AsksFor(next.owed, ReaderOf(q).value) {
        ReadAgainSettles(w, d, q);
        assert Unread(w, q);
      }
    case Elsewhere(_) =>
      forall q | Unread(next, q) ensures AsksFor(next.owed, ReaderOf(q).value) { assert Unread(w, q); }
  }

  /** Over every run, at every moment: what a daemon has not read is owed. */
  lemma {:induction false} NothingIsLost(worlds: seq<World>, events: seq<Event>, i: nat)
    requires Run(worlds, events) && Kept(worlds[0]) && i < |worlds|
    ensures Kept(worlds[i])
  {
    if i > 0 {
      NothingIsLost(worlds, events, i - 1);
      EventKeeps(worlds[i - 1], events[i - 1], worlds[i]);
    }
  }

  // ----- a turn that does not fail ---------------------------------------------------

  lemma {:induction false} RefusedGrows(w: World, steps: seq<Step>, i: nat, ends: nat -> Outcome, ran: set<StepKey>,
      refused: seq<Step>)
    requires i <= |steps|
    ensures |refused| <= |CommitFrom(w, steps, i, ends, ran, refused).refused|
    decreases |steps| - i
  {
    if i < |steps| {
      if ends(i) == Done {
        RefusedGrows(AfterStep(w, steps[i], ends(i)), steps, i + 1, ends, ran + {KeyOf(steps[i])}, refused);
      } else if steps[i].action.WriteRecord? {
        RefusedGrows(w, steps, i + 1, ends, ran, refused + [steps[i]]);
      }
    }
  }

  /** A commit that nothing stopped and nothing refused has run every step. */
  lemma {:induction false} AllRan(w: World, steps: seq<Step>, i: nat, ends: nat -> Outcome, ran: set<StepKey>,
      refused: seq<Step>)
    requires i <= |steps|
    requires var c := CommitFrom(w, steps, i, ends, ran, refused); c.stopped.None? && |c.refused| == |refused|
    ensures var c := CommitFrom(w, steps, i, ends, ran, refused);
            ran <= c.ran && forall k :: i <= k < |steps| ==> KeyOf(steps[k]) in c.ran
    decreases |steps| - i
  {
    if i < |steps| {
      if ends(i) == Done {
        AllRan(AfterStep(w, steps[i], ends(i)), steps, i + 1, ends, ran + {KeyOf(steps[i])}, refused);
      } else if steps[i].action.WriteRecord? {
        RefusedGrows(w, steps, i + 1, ends, ran, refused + [steps[i]]);
      }
    }
  }

  lemma {:induction false} RefusalsLength(steps: seq<Step>)
    ensures |Refusals(steps)| == |steps|
  {
    if steps != [] { RefusalsLength(steps[1..]); }
  }

  lemma {:induction false} DroppedGrows(steps: seq<Step>, i: nat, now: int, at: Filtered)
    requires i <= |steps|
    ensures at.dropped <= Filter(steps, i, now, at).dropped
    ensures |Filter(steps, i, now, at).kept| + |Filter(steps, i, now, at).dropped| ==
        |at.kept| + |at.dropped| + |steps| - i
    ensures |Filter(steps, i, now, at).dropped| == |at.dropped| ==>
        Filter(steps, i, now, at).kept == at.kept + steps[i..]
    decreases |steps| - i
  {
    if i < |steps| {
      var step, name := steps[i], Describe(steps[i]);
      if UnattendedForbidden(step) {
        DroppedGrows(steps, i + 1, now, at.(dropped := at.dropped + [Forbidden(step)]));
      } else if Held(at.retries, name, now) {
        DroppedGrows(steps, i + 1, now, at.(dropped := at.dropped + [HeldBack(step)], present := at.present + {name}));
      } else {
        DroppedGrows(steps, i + 1, now, Filtered(at.kept + [step], at.dropped,
          at.retries[name := NextRetry(at.retries, name, now)], at.present + {name}));
        assert at.kept + [step] + steps[i + 1..] == at.kept + steps[i..];
      }
    }
  }

  lemma {:induction false} PlanBacked(e: Event, w: World)
    requires e.Attended? || e.Unattended?
    ensures PlanOf(e, w).failing == [] ==> Backed(PlanOf(e, w).owed, PlanOf(e, w).steps)
  {
    PlanIsSound(e.rendering, e.listing, w, e.probe);
    if e.Unattended? {
      var plan := PlanFor(e.rendering, e.listing, w, e.probe);
      DroppedGrows(plan.steps, 0, e.now, Filtered([], [], e.retries, {}));
      assert [] + plan.steps[0..] == plan.steps;
    }
  }

  lemma {:induction false} UnrunNone(owed: seq<OwedStep>, ran: set<StepKey>)
    requires forall o :: o in owed ==> OwedKey(o) in ran
    ensures Unrun(owed, ran) == []
  {
    if owed != [] {
      assert owed == [owed[0]] + owed[1..];
      UnrunNone(owed[1..], ran);
    }
  }

  lemma {:induction false} SucceededRan(w: World, plan: Plan, declaration: Option<string>, luck: Luck)
    requires StageAndCommit(w, plan, declaration, luck).0.ending == Succeeded
    requires StageAndCommit(w, plan, declaration, luck).0.failing == []
    ensures plan.failing == []
    ensures forall s :: s in plan.steps ==> KeyOf(s) in StageAndCommit(w, plan, declaration, luck).1
  {
    if !Empty(plan) {
      var (staged, ok) := StageFrom(w, plan.files, 0, luck.stage);
      var start := Accepting(staged, declaration);
      var c := CommitFrom(start, plan.steps, 0, luck.commit, {}, []);
      RefusalsLength(c.refused);
      AllRan(start, plan.steps, 0, luck.commit, {}, []);
    }
  }

  /** A turn that does not end failing leaves nothing owed. */
  lemma {:induction false} NothingOwedAfter(e: Event, w: World)
    requires e.Attended? || e.Unattended?
    requires StateOf(PlanOf(e, w), ResultOf(e, w)) != Failing
    ensures ResultOf(e, w).world.owed == []
  {
    var plan := PlanOf(e, w);
    var (result, ran) := StageAndCommit(w, plan, DeclarationOf(e), e.luck);
    SucceededRan(w, plan, DeclarationOf(e), e.luck);
    PlanBacked(e, w);
    UnrunNone(plan.owed, ran);
  }

  /** After any run, a turn that does not end failing leaves networkd, udev and systemd
      having read exactly what is on disk, but for what somebody else has edited since. */
  lemma {:induction false} NotFailingMeansRead(worlds: seq<World>, events: seq<Event>, e: Event)
    requires Run(worlds, events) && Kept(worlds[0]) && (e.Attended? || e.Unattended?)
    requires StateOf(PlanOf(e, worlds[|events|]), ResultOf(e, worlds[|events|])) != Failing
    ensures var after := ResultOf(e, worlds[|events|]).world;
            after.owed == [] && forall p :: ReaderOf(p).Some? && p !in after.foreign ==> Agrees(after, p)
  {
    var w := worlds[|events|];
    NothingIsLost(worlds, events, |events|);
    EventKeeps(w, e, ResultOf(e, w).world);
    NothingOwedAfter(e, w);
    var after := ResultOf(e, w).world;
    forall p | ReaderOf(p).Some? && p !in after.foreign ensures Agrees(after, p) {
      assert !AsksFor(after.owed, ReaderOf(p).value);
    }
  }
}
