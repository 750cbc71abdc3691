/** Whether udev has read its files by the time a link is given its event: it always has,
    unless the backoff holds its reload back. */
module Overtaking {
  import opened Orders
  import opened Host
  import opened Planning
  import opened Turns
  import opened OwingFacts
  import opened PlanFacts
  import opened NothingLost
  import opened Safety
  import opened TableFacts
  import opened LinkEvents
  import Backoff = Unattended

  const UDEV_RELOAD := CommandName("udevadm", ["control", "--reload"])

  predicate IsTrigger(n: Name) { n.CommandName? && n.name == "udevadm" && n.args != [] && n.args[0] == "trigger" }

  predicate IsUdevs(n: Name) { n == UDEV_RELOAD || IsTrigger(n) }

  function NameOf(o: OwedStep): Name { CommandName(o.name, o.args) }

  /** What is udev's has one phase, and of it no reload comes after an event. */
  ghost predicate InOrder(steps: seq<Step>) {
    && (forall s :: s in steps && IsUdevs(Describe(s)) ==> s.phase == NETWORKD)
    && forall i, j :: 0 <= i < j < |steps| && IsTrigger(Describe(steps[i])) ==> Describe(steps[j]) != UDEV_RELOAD
  }

  /** The same of a file of owed steps. */
  ghost predicate Tidy(owed: seq<OwedStep>) {
    && (forall o :: o in owed && IsUdevs(NameOf(o)) ==> o.phase == NETWORKD)
    && forall i, j :: 0 <= i < j < |owed| && IsTrigger(NameOf(owed[i])) ==> NameOf(owed[j]) != UDEV_RELOAD
  }

  ghost predicate HasTrigger(steps: seq<Step>) { exists s :: s in steps && IsTrigger(Describe(s)) }

  ghost predicate HasReload(steps: seq<Step>) { exists s :: s in steps && Describe(s) == UDEV_RELOAD }

  ghost predicate Quiet(steps: seq<Step>) { forall s :: s in steps ==> !IsUdevs(Describe(s)) }

  // ----- the steps of the comparison -------------------------------------------------

  lemma {:induction false} JoinInOrder(a: seq<Step>, b: seq<Step>)
    requires InOrder(a) && InOrder(b) && (!HasTrigger(a) || !HasReload(b))
    ensures InOrder(a + b)
  {
    var all := a + b;
    forall i, j | 0 <= i < j < |all| && IsTrigger(Describe(all[i])) ensures Describe(all[j]) != UDEV_RELOAD {
      if i < |a| <= j { assert a[i] in a && b[j - |a|] in b; }
    }
  }

  lemma {:induction false} QuietIsInOrder(a: seq<Step>)
    requires Quiet(a)
    ensures InOrder(a)
  {
    forall i | 0 <= i < |a| ensures !IsUdevs(Describe(a[i])) { assert a[i] in a; }
  }

  lemma {:induction false} Around(before: seq<Step>, udevs: seq<Step>, after: seq<Step>)
    requires Quiet(before) && InOrder(udevs) && Quiet(after)
    ensures InOrder(before + udevs + after)
    ensures HasTrigger(before + udevs + after) ==> HasTrigger(udevs)
    ensures forall s :: s in udevs ==> s in before + udevs + after
  {
    QuietIsInOrder(before);
    QuietIsInOrder(after);
    JoinInOrder(before, udevs);
    JoinInOrder(before + udevs, after);
  }

  lemma {:induction false} ReadersInOrder(r: Rendering, files: seq<FileChange>, links: set<string>)
    ensures InOrder(NetworkdSteps(r, files, links))
    ensures HasTrigger(NetworkdSteps(r, files, links)) ==> ReloadStep(NETWORKD, Udev) in NetworkdSteps(r, files, links)
  {
    var triggers := TriggerSteps(r.linkFiles, files, links);
    TriggerPart(r.linkFiles, files, links);
    var networkd := if ChangedFor(files, Networkd) then [ReloadStep(NETWORKD, Networkd)] else [];
    QuietIsInOrder(networkd);
    if ChangedFor(files, Udev) {
      TriggersInOrder(triggers);
      JoinInOrder([ReloadStep(NETWORKD, Udev)], triggers);
      JoinInOrder(networkd, [ReloadStep(NETWORKD, Udev)] + triggers);
    }
  }

  lemma {:induction false} TriggersInOrder(triggers: seq<Step>)
    requires forall s :: s in triggers ==> s.phase == NETWORKD && IsTrigger(Describe(s))
    ensures InOrder(triggers) && !HasReload(triggers)
  {
    forall j | 0 <= j < |triggers| ensures Describe(triggers[j]) != UDEV_RELOAD { assert triggers[j] in triggers; }
  }

  lemma {:induction false} EarlyQuiet(f: FirewallChange, switches: seq<SwitchChange>)
    ensures Quiet(FirewallSteps(f) + SwitchSteps(switches))
  {
    SwitchPart(switches);
  }

  lemma {:induction false} ProcessesQuiet(r: Rendering, files: seq<FileChange>, w: World, probe: Probe)
    ensures Quiet(UnitReload(files) + ProcessSteps(r, files, w, probe))
  {
    ProcessPart(r, files, w, probe);
  }

  lemma {:induction false} LateQuiet(files: seq<FileChange>, records: seq<RecordChange>)
    ensures Quiet(DeferredReclaim(files) + RecordSteps(records))
  {
    RemovalPart(files);
    RecordPart(records);
  }

  lemma {:induction false} FourGroups(a: seq<Step>, b: seq<Step>, c: seq<Step>, d: seq<Step>, e: seq<Step>,
      f: seq<Step>, g: seq<Step>)
    ensures a + b + c + d + e + f + g == (a + b) + c + ((d + e) + (f + g))
  {}

  lemma {:induction false} OwnInOrder(e: Event, w: World)
    requires IsTurn(e)
    ensures InOrder(OwnSteps(e, w))
    ensures HasTrigger(OwnSteps(e, w)) ==> ReloadStep(NETWORKD, Udev) in OwnSteps(e, w)
  {
    var p := FullPlan(e, w);
    PartsInOrder(e.rendering, p.files, p.switches, p.firewall, p.records, w, e.probe);
  }

  lemma {:induction false} PartsInOrder(r: Rendering, files: seq<FileChange>, switches: seq<SwitchChange>,
      f: FirewallChange, records: seq<RecordChange>, w: World, probe: Probe)
    ensures InOrder(StepsOf(r, files, switches, f, records, w, probe))
    ensures HasTrigger(StepsOf(r, files, switches, f, records, w, probe)) ==>
              ReloadStep(NETWORKD, Udev) in StepsOf(r, files, switches, f, records, w, probe)
  {
    EarlyQuiet(f, switches);
    ProcessesQuiet(r, files, w, probe);
    LateQuiet(files, records);
    ReadersInOrder(r, files, w.links);
    var processes := UnitReload(files) + ProcessSteps(r, files, w, probe);
    var late := DeferredReclaim(files) + RecordSteps(records);
    Around(FirewallSteps(f) + SwitchSteps(switches), NetworkdSteps(r, files, w.links), processes + late);
    FourGroups(FirewallSteps(f), SwitchSteps(switches), NetworkdSteps(r, files, w.links), UnitReload(files),
        ProcessSteps(r, files, w, probe), DeferredReclaim(files), RecordSteps(records));
  }

  // ----- what earlier turns left owed ------------------------------------------------

  lemma {:induction false} InBetween(a: seq<Step>, step: Step, b: seq<Step>)
    requires InOrder(a + b) && (IsUdevs(Describe(step)) ==> step.phase == NETWORKD)
    requires Describe(step) == UDEV_RELOAD ==> !HasTrigger(a)
    requires IsTrigger(Describe(step)) ==> !HasReload(b)
    ensures InOrder(a + [step] + b)
  {
    var all, less := a + [step] + b, a + b;
    forall i, j | 0 <= i < j < |all| && IsTrigger(Describe(all[i])) ensures Describe(all[j]) != UDEV_RELOAD {
      if i == |a| {
        assert all[j] == b[j - |a| - 1] && b[j - |a| - 1] in b;
      } else if j == |a| {
        assert all[i] == a[i] && a[i] in a;
      } else {
        assert all[i] == less[if i < |a| then i else i - 1] && all[j] == less[if j < |a| then j else j - 1];
      }
    }
    forall s | s in all && s != step ensures s in less {}
  }

  lemma {:induction false} LaterThan(steps: seq<Step>, at: nat, phase: int)
    requires PhaseSorted(steps) && at <= |steps| && (at < |steps| ==> steps[at].phase > phase)
    ensures forall s :: s in steps[at..] ==> s.phase > phase
  {
    forall j | at <= j < |steps| ensures steps[j].phase > phase { assert steps[at].phase <= steps[j].phase; }
  }

  lemma {:induction false} AfterItsPhase(a: seq<Step>, step: Step, b: seq<Step>)
    requires InOrder(a + b) && (IsUdevs(Describe(step)) ==> step.phase == NETWORKD)
    requires (forall s :: s in b ==> s.phase > step.phase) && (Describe(step) == UDEV_RELOAD ==> !HasTrigger(a + b))
    ensures InOrder(a + [step] + b)
  {
    assert forall s :: s in a || s in b ==> s in a + b;
    InBetween(a, step, b);
  }

  lemma {:induction false} InsertInOrder(steps: seq<Step>, step: Step)
    requires PhaseSorted(steps) && InOrder(steps) && (IsUdevs(Describe(step)) ==> step.phase == NETWORKD)
    requires Describe(step) == UDEV_RELOAD ==> !HasTrigger(steps)
    ensures InOrder(InsertStep(steps, step))
  {
    var at := InsertAt(steps, step);
    var a, b := steps[..at], steps[at..];
    assert steps == a + b && InsertStep(steps, step) == a + [step] + b;
    LaterThan(steps, at, step.phase);
    AfterItsPhase(a, step, b);
  }

  /** The steps hold udev's reload if they hold an event, or none is still to be put in. */
  ghost predicate Ready(steps: seq<Step>, owed: seq<OwedStep>) {
    HasTrigger(steps) ==>
      StepKey(NETWORKD, UDEV_RELOAD) in KeysOf(steps) || forall o :: o in owed ==> NameOf(o) != UDEV_RELOAD
  }

  lemma {:induction false} TidyRest(owed: seq<OwedStep>)
    requires owed != [] && Tidy(owed)
    ensures Tidy(owed[1..])
    ensures IsUdevs(NameOf(owed[0])) ==> owed[0].phase == NETWORKD
    ensures IsTrigger(NameOf(owed[0])) ==> forall o :: o in owed[1..] ==> NameOf(o) != UDEV_RELOAD
  {
    assert owed == [owed[0]] + owed[1..];
    forall o | IsTrigger(NameOf(owed[0])) && o in owed[1..] ensures NameOf(o) != UDEV_RELOAD {
      var j :| 0 <= j < |owed[1..]| && owed[1..][j] == o;
      assert owed[j + 1] == o;
    }
  }

  lemma {:induction false} ReadyRest(steps: seq<Step>, owed: seq<OwedStep>, links: set<string>)
    requires owed != [] && Tidy(owed) && Ready(steps, owed)
    ensures Ready(steps, owed[1..])
    ensures !Skipped(owed[0], steps, links) ==> Ready(InsertStep(steps, StepFor(owed[0])), owed[1..])
    ensures !Skipped(owed[0], steps, links) && NameOf(owed[0]) == UDEV_RELOAD ==> !HasTrigger(steps)
  {
    assert owed == [owed[0]] + owed[1..];
    TidyRest(owed);
    InsertMembers(steps, StepFor(owed[0]));
    assert owed[0] in owed;
  }

  lemma {:induction false} AddOwedInOrder(at: Owing, owed: seq<OwedStep>, links: set<string>)
    requires PhaseSorted(at.steps) && InOrder(at.steps) && Tidy(owed) && Ready(at.steps, owed)
    ensures InOrder(AddOwed(at, owed, links).steps)
    decreases |owed|
  {
    if owed != [] {
      TidyRest(owed);
      ReadyRest(at.steps, owed, links);
      if Skipped(owed[0], at.steps, links) {
        AddOwedInOrder(at, owed[1..], links);
      } else {
        InsertInOrder(at.steps, StepFor(owed[0]));
        OwingFacts.InsertSorted(at.steps, StepFor(owed[0]));
        AddOwedInOrder(Owing(InsertStep(at.steps, StepFor(owed[0])), at.owed + [owed[0]]), owed[1..], links);
      }
    }
  }

  lemma {:induction false} FullInOrder(e: Event, w: World)
    requires IsTurn(e) && Tidy(w.owed)
    ensures InOrder(FullPlan(e, w).steps)
  {
    var p, steps := FullPlan(e, w), OwnSteps(e, w);
    OwnInOrder(e, w);
    StepsSorted(e.rendering, p.files, p.switches, p.firewall, p.records, w, e.probe);
    AddOwedInOrder(Owing(steps, OwedOf(steps)), w.owed, w.links);
  }

  // ----- the filter ------------------------------------------------------------------

  lemma {:induction false} LessOne(a: seq<Step>, s: Step, b: seq<Step>)
    requires InOrder(a + [s] + b)
    ensures InOrder(a + b)
  {
    var all, less := a + [s] + b, a + b;
    assert forall i :: 0 <= i < |less| ==> less[i] == all[if i < |a| then i else i + 1];
    forall t | t in less ensures t in all {}
  }

  lemma {:induction false} FilterInOrder(steps: seq<Step>, i: nat, now: int, at: Filtered)
    requires i <= |steps| && InOrder(at.kept + steps[i..])
    ensures InOrder(Filter(steps, i, now, at).kept)
    decreases |steps| - i
  {
    if i == |steps| {
      assert at.kept + steps[i..] == at.kept;
    } else {
      var step, name := steps[i], Describe(steps[i]);
      assert at.kept + steps[i..] == at.kept + [step] + steps[i + 1..];
      if UnattendedForbidden(step) {
        LessOne(at.kept, step, steps[i + 1..]);
        FilterInOrder(steps, i + 1, now, at.(dropped := at.dropped + [Forbidden(step)]));
      } else if Held(at.retries, name, now) {
        LessOne(at.kept, step, steps[i + 1..]);
        FilterInOrder(steps, i + 1, now, at.(dropped := at.dropped + [HeldBack(step)], present := at.present + {name}));
      } else {
        FilterInOrder(steps, i + 1, now, Filtered(at.kept + [step], at.dropped,
            at.retries[name := NextRetry(at.retries, name, now)], at.present + {name}));
      }
    }
  }

  /** In every plan of a turn, filtered or not, udev's reload is ahead of every event. */
  lemma {:induction false} ReloadAheadOfEvents(e: Event, w: World)
    requires IsTurn(e) && Tidy(w.owed)
    ensures InOrder(PlanOf(e, w).steps)
  {
    FullInOrder(e, w);
    if e.Unattended? {
      var full := FullPlan(e, w);
      assert [] + full.steps[0..] == full.steps;
      FilterInOrder(full.steps, 0, e.now, Filtered([], [], e.retries, {}));
    }
  }

  // ----- the owed file stays in order ------------------------------------------------

  lemma {:induction false} LaterAt(a: string, b: string, n: nat)
    requires n < |a| && n < |b| && a[n] > b[n] && forall i :: 0 <= i < n ==> a[i] == b[i]
    ensures !TextLe(a, b)
  {
    if n > 0 { LaterAt(a[1..], b[1..], n - 1); }
  }

  /** As text an event comes after udev's reload, and never ahead of it. */
  lemma {:induction false} EventIsLater(o: OwedStep, reload: OwedStep)
    requires IsTrigger(NameOf(o)) && NameOf(reload) == UDEV_RELOAD
    ensures !TextLe(OwedText(o), OwedText(reload))
  {
    var rest := if |o.args| == 1 then "" else " " + JoinArgs(o.args[1..]);
    assert JoinArgs(o.args) == "trigger" + rest;
    assert JoinArgs(["control", "--reload"]) == "control" + " " + "--reload";
    assert OwedText(o) == "udevadm " + ("trigger" + rest);
    assert OwedText(reload) == "udevadm " + ("control" + " " + "--reload");
    LaterAt(OwedText(o), OwedText(reload), |"udevadm "|);
  }

  lemma {:induction false} OwedOrderIsTotal()
    ensures TotalPreorder(OwedOrder)
  {
    TextOrder();
  }

  ghost predicate Placed(owed: seq<OwedStep>) {
    forall o :: o in owed && IsUdevs(NameOf(o)) ==> o.phase == NETWORKD
  }

  lemma {:induction false} SettledIsTidy(w: World, owed: seq<OwedStep>, ran: set<StepKey>)
    requires Placed(owed)
    ensures Tidy(Settle(w, owed, ran).owed)
  {
    var left := Settle(w, owed, ran).owed;
    UnrunMembers(owed, ran);
    SortKeeps(Unrun(owed, ran), OwedOrder);
    OwedOrderIsTotal();
    SortSorted(Unrun(owed, ran), OwedOrder);
    forall i, j | 0 <= i < j < |left| && IsTrigger(NameOf(left[i])) ensures NameOf(left[j]) != UDEV_RELOAD {
      assert OwedOrder(left[i], left[j]) && left[i] in left && left[j] in left;
      if NameOf(left[j]) == UDEV_RELOAD { EventIsLater(left[i], left[j]); }
    }
  }

  /** What is settled as owed is in the order of the phases, and in one phase of the commands. */
  lemma {:induction false} SettledInOrder(w: World, owed: seq<OwedStep>, ran: set<StepKey>, i: nat, j: nat)
    requires i < j < |Settle(w, owed, ran).owed|
    ensures var a, b := Settle(w, owed, ran).owed[i], Settle(w, owed, ran).owed[j];
            a.phase < b.phase || (a.phase == b.phase && TextLe(OwedText(a), OwedText(b)))
  {
    OwedOrderIsTotal();
    SortSorted(Unrun(owed, ran), OwedOrder);
    assert OwedOrder(Settle(w, owed, ran).owed[i], Settle(w, owed, ran).owed[j]);
  }

  lemma {:induction false} AddOwedMembers(at: Owing, owed: seq<OwedStep>, links: set<string>)
    ensures forall o :: o in AddOwed(at, owed, links).owed ==> o in at.owed || o in owed
    decreases |owed|
  {
    if owed != [] {
      assert owed == [owed[0]] + owed[1..];
      if Skipped(owed[0], at.steps, links) {
        AddOwedMembers(at, owed[1..], links);
      } else {
        AddOwedMembers(Owing(InsertStep(at.steps, StepFor(owed[0])), at.owed + [owed[0]]), owed[1..], links);
      }
    }
  }

  lemma {:induction false} OwedOfInOrder(steps: seq<Step>)
    requires forall s :: s in steps && IsUdevs(Describe(s)) ==> s.phase == NETWORKD
    ensures Placed(OwedOf(steps))
  {
    if steps != [] {
      assert steps == [steps[0]] + steps[1..];
      OwedOfInOrder(steps[1..]);
    }
  }

  lemma {:induction false} TurnIsTidy(e: Event, w: World)
    requires IsTurn(e) && Tidy(w.owed)
    ensures Tidy(ResultOf(e, w).world.owed)
  {
    var steps := OwnSteps(e, w);
    OwnInOrder(e, w);
    OwedOfInOrder(steps);
    AddOwedMembers(Owing(steps, OwedOf(steps)), w.owed, w.links);
    var (result, ran) := StageAndCommit(w, PlanOf(e, w), DeclarationOf(e), e.luck);
    SettledIsTidy(result.world, PlanOf(e, w).owed, ran);
  }

  lemma {:induction false} TidyAfter(e: Event, w: World, next: World)
    requires Happens(w, e, next) && Tidy(w.owed)
    ensures Tidy(next.owed)
  {
    if IsTurn(e) { TurnIsTidy(e, w); }
  }

  /** Over every run from a file that owes nothing, it stays in order. */
  lemma {:induction false} TidyOverRun(worlds: seq<World>, events: seq<Event>, i: nat)
    requires NothingLost.Run(worlds, events) && Tidy(worlds[0].owed) && i < |worlds|
    ensures Tidy(worlds[i].owed)
  {
    forall k | 0 <= k < i && Tidy(worlds[k].owed) ensures Tidy(worlds[k + 1].owed) {
      TidyAfter(events[k], worlds[k], worlds[k + 1]);
    }
    TidyUpTo(worlds, i);
  }

  lemma {:induction false} TidyUpTo(worlds: seq<World>, i: nat)
    requires i < |worlds| && Tidy(worlds[0].owed)
    requires forall k :: 0 <= k < i && Tidy(worlds[k].owed) ==> Tidy(worlds[k + 1].owed)
    ensures Tidy(worlds[i].owed)
  {
    if i > 0 { TidyUpTo(worlds, i - 1); }
  }

  // ----- what udev has read when a step is tried -------------------------------------

  /** udev has not read some file of its that regied last changed. */
  ghost predicate Behind(w: World) { exists p :: ReaderOf(p) == Some(Udev) && Unread(w, p) }

  ghost predicate UnitsOnly(steps: seq<Step>) {
    forall s :: s in steps && s.action.RemoveFile? ==> ReaderOf(s.action.path) == Some(Systemd)
  }

  lemma {:induction false} SameFiles(w: World, v: World)
    requires w.disk == v.disk && w.seen == v.seen && w.foreign == v.foreign
    ensures Behind(w) <==> Behind(v)
  {
    assert forall p :: Unread(w, p) <==> Unread(v, p);
  }

  lemma {:induction false} ReadAgainOnUdev(w: World, d: Daemon)
    ensures Behind(ReadAgain(w, d)) <==> Behind(w) && d != Udev
  {
    forall p
      ensures ReaderOf(p) == Some(Udev) ==> (Unread(ReadAgain(w, d), p) <==> Unread(w, p) && d != Udev)
    {
      ReadAgainSettles(w, d, p);
    }
  }

  lemma {:induction false} RemovalOnUdev(w: World, p: Path)
    requires ReaderOf(p) == Some(Systemd)
    ensures Behind(DropFile(w, p)) <==> Behind(w)
  {
    assert forall q :: ReaderOf(q) == Some(Udev) ==> (Unread(DropFile(w, p), q) <==> Unread(w, q));
  }

  /** udev's own reload is the one step after which it has read its files. */
  lemma {:induction false} StepOnUdev(w: World, step: Step)
    requires step.action.RemoveFile? ==> ReaderOf(step.action.path) == Some(Systemd)
    ensures Behind(Effect(w, step.action)) <==> Behind(w) && Describe(step) != UDEV_RELOAD
  {
    if step.action.RemoveFile? {
      RemovalOnUdev(w, step.action.path);
    } else if d: Daemon :| IsReload(step, d) {
      ReloadEffect(w, step, d);
      ReadAgainOnUdev(w, d);
    } else {
      assert !IsReload(step, Udev);
      OtherEffect(w, step);
      SameFiles(w, Effect(w, step.action));
    }
  }

  /** A step is tried while udev is behind exactly if it was to begin with and no step before
      is its reload. */
  lemma {:induction false} CommitOnUdev(w: World, steps: seq<Step>, i: nat, ends: nat -> Outcome, ran: set<StepKey>,
      refused: seq<Step>, k: nat)
    requires i <= |steps| && UnitsOnly(steps) && k < |CommitFrom(w, steps, i, ends, ran, refused).trace|
    ensures i + k < |steps|
    ensures Behind(CommitFrom(w, steps, i, ends, ran, refused).trace[k].before)
            <==> Behind(w) && forall j :: i <= j < i + k ==> Describe(steps[j]) != UDEV_RELOAD
    decreases |steps| - i
  {
    if k > 0 {
      var s := steps[i];
      assert s in steps;
      StepOnUdev(w, s);
      if ends(i) == Done {
        CommitOnUdev(Effect(w, s.action), steps, i + 1, ends, ran + {KeyOf(s)}, refused, k - 1);
      } else {
        CommitOnUdev(w, steps, i + 1, ends, ran, refused + [s], k - 1);
      }
    }
  }

  // ----- a turn ----------------------------------------------------------------------

  /** The host once every file of the turn's plan is written. */
  function Staged(e: Event, w: World): World
    requires IsTurn(e)
  {
    StageFrom(w, PlanOf(e, w).files, 0, _ => true).0
  }

  lemma {:induction false} StagedWhole(w: World, files: seq<FileChange>, i: nat, ok: nat -> bool)
    requires i <= |files| && StageFrom(w, files, i, ok).1
    ensures StageFrom(w, files, i, _ => true).0 == StageFrom(w, files, i, ok).0
    decreases |files| - i
  {
    if i < |files| { StagedWhole(StageOne(w, files[i]), files, i + 1, ok); }
  }

  lemma {:induction false} TurnOnUdev(e: Event, w: World, k: nat)
    requires IsTurn(e) && UnitsOnly(PlanOf(e, w).steps) && k < |ResultOf(e, w).trace|
    ensures k < |PlanOf(e, w).steps| && ResultOf(e, w).trace[k].step == PlanOf(e, w).steps[k]
    ensures Behind(ResultOf(e, w).trace[k].before)
            <==> Behind(Staged(e, w)) && forall j :: 0 <= j < k ==> Describe(PlanOf(e, w).steps[j]) != UDEV_RELOAD
  {
    var plan := PlanOf(e, w);
    TurnTrace(w, plan, DeclarationOf(e), e.luck);
    var staged := StageFrom(w, plan.files, 0, e.luck.stage).0;
    StagedWhole(w, plan.files, 0, e.luck.stage);
    SameFiles(staged, Accepting(staged, DeclarationOf(e)));
    CommitOnUdev(Accepting(staged, DeclarationOf(e)), plan.steps, 0, e.luck.commit, {}, [], k);
  }

  lemma {:induction false} PlanTakesUnitsOnly(e: Event, w: World)
    requires IsTurn(e)
    ensures UnitsOnly(PlanOf(e, w).steps)
  {
    var full := FullPlan(e, w);
    PlanIsSound(e.rendering, e.listing, w, e.probe);
    PlanKeepsSteps(e, w);
    forall s | s in full.steps && s.action.RemoveFile? ensures ReaderOf(s.action.path) == Some(Systemd) {
      var i :| 0 <= i < |full.steps| && full.steps[i] == s;
      assert RemovalAt(full.steps, full.owed, i);
    }
  }

  /** An event is given while udev is behind exactly if it is once the files are written, and
      the plan has no reload of udev. */
  lemma {:induction false} EventWithoutReload(e: Event, w: World, k: nat)
    requires IsTurn(e) && Tidy(w.owed)
    requires k < |ResultOf(e, w).trace| && IsTrigger(Describe(ResultOf(e, w).trace[k].step))
    ensures Behind(ResultOf(e, w).trace[k].before) <==> Behind(Staged(e, w)) && !HasReload(PlanOf(e, w).steps)
  {
    var steps := PlanOf(e, w).steps;
    PlanTakesUnitsOnly(e, w);
    TurnOnUdev(e, w, k);
    ReloadAheadOfEvents(e, w);
    if s :| s in steps && Describe(s) == UDEV_RELOAD {
      var j :| 0 <= j < |steps| && steps[j] == s;
      assert j != k && !(k < j);
    } else {
      forall j | 0 <= j < k ensures Describe(steps[j]) != UDEV_RELOAD { assert steps[j] in steps; }
    }
  }

  // ----- when the plan has no reload -------------------------------------------------

  lemma {:induction false} StagedIsAsked(e: Event, w: World)
    requires IsTurn(e) && Kept(w) && Behind(Staged(e, w))
    ensures HasReload(FullPlan(e, w).steps)
  {
    var full, plan := FullPlan(e, w), PlanOf(e, w);
    PlanAnswers(e.rendering, e.listing, w, e.probe);
    PlanIsSound(e.rendering, e.listing, w, e.probe);
    if e.Unattended? { UnattendedAnswers(w, full, e.retries, e.now); }
    KeptIsCovered(w, plan);
    StageCovers(w, plan.files, 0, _ => true, plan.owed);
    var p :| ReaderOf(p) == Some(Udev) && Unread(Staged(e, w), p);
    assert StillAsked(plan.owed, {}, Udev);
    var o :| o in plan.owed && Reloads(o, Udev);
    assert OwedKey(o) in KeysOf(full.steps);
    var s :| s in full.steps && KeyOf(s) == OwedKey(o);
    assert Describe(s) == UDEV_RELOAD;
  }

  lemma {:induction false} KeptIsCovered(w: World, plan: Plan)
    requires Kept(w) && Answers(w, plan)
    ensures Covered(w, plan.owed, {})
  {
    forall p | Unread(w, p) ensures StillAsked(plan.owed, {}, ReaderOf(p).value) {
      assert AsksFor(w.owed, ReaderOf(p).value);
      var o :| o in w.owed && Reloads(o, ReaderOf(p).value);
      assert AsksFor(plan.owed, ReaderOf(p).value);
    }
  }

  predicate ReloadIsHeld(e: Event) { e.Unattended? && Held(e.retries, UDEV_RELOAD, e.now) }

  lemma {:induction false} HasReloadAt(steps: seq<Step>)
    ensures HasReload(steps) <==> exists k :: 0 <= k < |steps| && Describe(steps[k]) == UDEV_RELOAD
  {
    if s :| s in steps && Describe(s) == UDEV_RELOAD {
      var k :| 0 <= k < |steps| && steps[k] == s;
    }
    if k :| 0 <= k < |steps| && Describe(steps[k]) == UDEV_RELOAD { assert steps[k] in steps; }
  }

  lemma {:induction false} ReloadIsAllowed(steps: seq<Step>)
    ensures HasReload(steps) <==> Backoff.Present(steps, UDEV_RELOAD)
  {
    assert forall s: Step :: Describe(s) == UDEV_RELOAD ==> !UnattendedForbidden(s);
  }

  lemma {:induction false} FewerReloads(few: seq<Step>, many: seq<Step>)
    requires (forall s :: s in few ==> s in many) && HasReload(few)
    ensures HasReload(many)
  {}

  /** Only the backoff takes udev's reload out of a plan. */
  lemma {:induction false} HeldReloadIsOut(e: Event, w: World)
    requires IsTurn(e)
    ensures HasReload(PlanOf(e, w).steps) <==> HasReload(FullPlan(e, w).steps) && !ReloadIsHeld(e)
  {
    if e.Unattended? {
      var full, steps := FullPlan(e, w), PlanOf(e, w).steps;
      PlanKeepsSteps(e, w);
      Backoff.KeysAreIndependent(full, e.retries, e.now, UDEV_RELOAD);
      ReloadIsAllowed(full.steps);
      HasReloadAt(steps);
      if HasReload(steps) { FewerReloads(steps, full.steps); }
    }
  }

  /** A turn, attended or not, gives a link its event while udev has not read what it has to
      exactly if the turn is unattended, the backoff holds udev's reload back, and there is
      something to read once the files are written. */
  lemma {:induction false} EventOvertakes(e: Event, w: World, k: nat)
    requires IsTurn(e) && Kept(w) && Tidy(w.owed)
    requires k < |ResultOf(e, w).trace| && IsTrigger(Describe(ResultOf(e, w).trace[k].step))
    ensures Behind(ResultOf(e, w).trace[k].before) <==> ReloadIsHeld(e) && Behind(Staged(e, w))
  {
    EventWithoutReload(e, w, k);
    HeldReloadIsOut(e, w);
    if Behind(Staged(e, w)) { StagedIsAsked(e, w); }
  }

  /** The same of every turn of every run that begins in order, as one does that begins with
      nothing owed. */
  lemma {:induction false} EventOvertakesOverRun(worlds: seq<World>, events: seq<Event>, i: nat, k: nat)
    requires NothingLost.Run(worlds, events) && Kept(worlds[0]) && Tidy(worlds[0].owed)
    requires i < |events| && IsTurn(events[i])
    requires k < |ResultOf(events[i], worlds[i]).trace|
        && IsTrigger(Describe(ResultOf(events[i], worlds[i]).trace[k].step))
    ensures Behind(ResultOf(events[i], worlds[i]).trace[k].before)
            <==> ReloadIsHeld(events[i]) && Behind(Staged(events[i], worlds[i]))
  {
    NothingIsLost(worlds, events, i);
    TidyOverRun(worlds, events, i);
    EventOvertakes(events[i], worlds[i], k);
  }

  // ----- a link whose event overtakes ------------------------------------------------

  lemma {:induction false} OwnStepInPlan(e: Event, w: World, s: Step)
    requires IsTurn(e) && s in OwnSteps(e, w)
    ensures s in FullPlan(e, w).steps
  {
    AddOwedGrows(Owing(OwnSteps(e, w), OwedOf(OwnSteps(e, w))), w.owed, w.links);
  }

  lemma {:induction false} ReadersInPlan(e: Event, w: World, s: Step)
    requires IsTurn(e) && s in NetworkdSteps(e.rendering, FullPlan(e, w).files, w.links)
    ensures s in FullPlan(e, w).steps
  {
    assert s in OwnSteps(e, w);
    OwnStepInPlan(e, w, s);
  }

  lemma {:induction false} EventInPlan(e: Event, w: World, ifname: string)
    requires IsTurn(e) && AsksForEvent(e, w, ifname)
    ensures ReloadStep(NETWORKD, Udev) in FullPlan(e, w).steps
    ensures exists s :: s in FullPlan(e, w).steps && IsEvent(s, ifname)
  {
    EventInReaders(e.rendering, FullPlan(e, w).files, w.links, ifname);
    var s :| s in NetworkdSteps(e.rendering, FullPlan(e, w).files, w.links) && IsEvent(s, ifname);
    ReadersInPlan(e, w, s);
    ReadersInPlan(e, w, ReloadStep(NETWORKD, Udev));
  }

  lemma {:induction false} EventAllowed(s: Step, ifname: string)
    requires IsEvent(s, ifname)
    ensures !UnattendedForbidden(s) && Describe(s) == Describe(StepFor(EventOf(ifname)))
  {}

  /** So the backoff can hold udev's reload back and let the event of a link run whose file was
      to be written: it runs while udev is behind exactly if there is something to read once
      the files are written, and once it has run it is owed no more. */
  lemma {:induction false} EventOvertakesReload(e: Event, w: World, ifname: string)
    requires e.Unattended? && '/' !in ifname && AsksForEvent(e, w, ifname)
    requires Held(e.retries, Describe(ReloadStep(NETWORKD, Udev)), e.now)
        && !Held(e.retries, Describe(StepFor(EventOf(ifname))), e.now)
    ensures forall s :: s in PlanOf(e, w).steps ==> Describe(s) != Describe(ReloadStep(NETWORKD, Udev))
    ensures exists s :: s in PlanOf(e, w).steps && Describe(s) == Describe(StepFor(EventOf(ifname)))
    ensures OwedKey(EventOf(ifname)) in Ran(e, w) ==> !Waits(ResultOf(e, w).world, ifname)
    ensures Tidy(w.owed) ==>
              forall k :: 0 <= k < |ResultOf(e, w).trace| && IsEvent(ResultOf(e, w).trace[k].step, ifname) ==>
                (Behind(ResultOf(e, w).trace[k].before) <==> Behind(Staged(e, w)))
  {
    var full, reload, event := FullPlan(e, w), ReloadStep(NETWORKD, Udev), StepFor(EventOf(ifname));
    EventInPlan(e, w, ifname);
    var s :| s in full.steps && IsEvent(s, ifname);
    EventAllowed(s, ifname);
    assert Backoff.Present(full.steps, Describe(event)) && Backoff.Present(full.steps, Describe(reload));
    Backoff.KeysAreIndependent(full, e.retries, e.now, Describe(reload));
    Backoff.KeysAreIndependent(full, e.retries, e.now, Describe(event));
    var k :| 0 <= k < |PlanOf(e, w).steps| && Describe(PlanOf(e, w).steps[k]) == Describe(event);
    assert PlanOf(e, w).steps[k] in PlanOf(e, w).steps;
    EventAfter(e, w, ifname);
    if Tidy(w.owed) {
      forall k | 0 <= k < |ResultOf(e, w).trace| && IsEvent(ResultOf(e, w).trace[k].step, ifname)
        ensures Behind(ResultOf(e, w).trace[k].before) <==> Behind(Staged(e, w))
      {
        EventWithoutReload(e, w, k);
      }
    }
  }
}
