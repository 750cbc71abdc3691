/** The event a link is given once its file is written: it is owed until it has run, for as
    long as the link is there. */
module LinkEvents {
  import opened Orders
  import opened Host
  import opened Planning
  import opened Turns
  import opened OwingFacts
  import opened PlanFacts
  import opened NothingLost
  import opened Idempotence
  import opened TableFacts
  import Planner

  // ----- what is owed, key by key ----------------------------------------------------

  /** Whether a step of these goes by a key. */
  predicate Asked(steps: seq<Step>, key: StepKey) { key in KeysOf(steps) }

  predicate Carried(owed: seq<OwedStep>, o: OwedStep, links: set<string>) {
    Owable(o.name, o.args) && !LinkGone(o, links) && exists x :: x in owed && OwedKey(x) == OwedKey(o)
  }

  lemma {:induction false} PresentIsOwed(at: Owing, o: OwedStep)
    requires Marked(at.steps) && Noted(at.steps, at.owed) && Owable(o.name, o.args) && OwedKey(o) in KeysOf(at.steps)
    ensures OwingFacts.Holds(at.owed, OwedKey(o))
  {
    var s :| s in at.steps && KeyOf(s) == OwedKey(o);
    assert s.action.Run? && s.owed;
  }

  /** A step the file holds is owed by the plan exactly if the plan had it already, or regied
      can owe it and its link is there. */
  lemma {:induction false} AddOwedHolds(at: Owing, owed: seq<OwedStep>, links: set<string>, o: OwedStep)
    requires OwingFacts.Sound(at) && Owable(o.name, o.args)
    ensures OwingFacts.Holds(AddOwed(at, owed, links).owed, OwedKey(o)) <==>
        OwingFacts.Holds(at.owed, OwedKey(o)) || Carried(owed, o, links)
    decreases |owed|
  {
    if owed != [] {
      assert owed == [owed[0]] + owed[1..];
      if Skipped(owed[0], at.steps, links) {
        AddOwedHolds(at, owed[1..], links, o);
        if OwedKey(owed[0]) == OwedKey(o) && !LinkGone(o, links) { PresentIsOwed(at, o); }
      } else {
        AddOne(at, owed[0], links);
        AddOwedHolds(Owing(InsertStep(at.steps, StepFor(owed[0])), at.owed + [owed[0]]), owed[1..], links, o);
        HoldsOneMore(at.owed, owed[0], OwedKey(o));
      }
    }
  }

  lemma {:induction false} HoldsOneMore(owed: seq<OwedStep>, o: OwedStep, key: StepKey)
    ensures OwingFacts.Holds(owed + [o], key) <==> OwingFacts.Holds(owed, key) || OwedKey(o) == key
  {
    assert o in owed + [o];
    if x :| x in owed && OwedKey(x) == key { assert x in owed + [o]; }
  }

  /** The keys of the steps a turn has run. */
  function Ran(e: Event, w: World): set<StepKey>
    requires IsTurn(e)
  {
    StageAndCommit(w, PlanOf(e, w), DeclarationOf(e), e.luck).1
  }

  lemma {:induction false} SettledKeys(w: World, owed: seq<OwedStep>, ran: set<StepKey>, key: StepKey)
    ensures OwingFacts.Holds(Settle(w, owed, ran).owed, key) <==> OwingFacts.Holds(owed, key) && key !in ran
  {
    UnrunMembers(owed, ran);
    SortKeeps(Unrun(owed, ran), OwedOrder);
  }

  /** The steps the comparison itself asks for. */
  function OwnSteps(e: Event, w: World): seq<Step>
    requires IsTurn(e)
  {
    Native(FullPlan(e, w), e.rendering, w, e.probe)
  }

  lemma {:induction false} OwnStepsHold(e: Event, w: World, o: OwedStep)
    requires IsTurn(e) && Owable(o.name, o.args)
    ensures OwingFacts.Sound(Owing(OwnSteps(e, w), OwedOf(OwnSteps(e, w))))
    ensures OwingFacts.Holds(OwedOf(OwnSteps(e, w)), OwedKey(o)) <==> Asked(OwnSteps(e, w), OwedKey(o))
  {
    var p, steps := FullPlan(e, w), OwnSteps(e, w);
    FileMembers(e.rendering, e.listing, w.disk);
    StepsSound(e.rendering, p.files, p.switches, p.firewall, p.records, w, e.probe);
    if Asked(steps, OwedKey(o)) { PresentIsOwed(Owing(steps, OwedOf(steps)), o); }
  }

  /** After any turn a step regied can owe is owed exactly if it was asked for or owed before,
      its link is there, and it has not run. */
  lemma {:induction false} OwedAfter(e: Event, w: World, o: OwedStep)
    requires IsTurn(e) && Owable(o.name, o.args)
    ensures OwingFacts.Holds(ResultOf(e, w).world.owed, OwedKey(o)) <==>
              (Asked(OwnSteps(e, w), OwedKey(o)) || Carried(w.owed, o, w.links)) && OwedKey(o) !in Ran(e, w)
  {
    var steps := OwnSteps(e, w);
    OwnStepsHold(e, w, o);
    AddOwedHolds(Owing(steps, OwedOf(steps)), w.owed, w.links, o);
    var (result, ran) := StageAndCommit(w, PlanOf(e, w), DeclarationOf(e), e.luck);
    SettledKeys(result.world, PlanOf(e, w).owed, ran, OwedKey(o));
  }

  // ----- a link's event --------------------------------------------------------------

  function EventOf(ifname: string): OwedStep { OwedStep(NETWORKD, "udevadm", UdevTrigger(ifname).args) }

  ghost predicate Waits(w: World, ifname: string) { OwingFacts.Holds(w.owed, OwedKey(EventOf(ifname))) }

  /** A turn asks for the event of a link whose file it finds to write, when the link is there. */
  ghost predicate AsksForEvent(e: Event, w: World, ifname: string)
    requires IsTurn(e)
  {
    var files := Files(e.rendering, e.listing, w.disk);
    && ChangedFor(files, Udev) && ifname in w.links
    && exists l :: l in e.rendering.linkFiles && l.ifname == ifname && WasWritten(ChangeFor(files, l.path))
  }

  lemma {:induction false} EventIsOwable(ifname: string, links: set<string>)
    requires '/' !in ifname
    ensures Owable("udevadm", EventOf(ifname).args) && (LinkGone(EventOf(ifname), links) <==> ifname !in links)
  {
    var path := SYS_CLASS_NET + ifname;
    assert LastArg(EventOf(ifname).args) == path && path[|SYS_CLASS_NET|..] == ifname
        && path[..|SYS_CLASS_NET|] == SYS_CLASS_NET;
  }

  predicate IsEvent(s: Step, ifname: string) { KeyOf(s) == OwedKey(EventOf(ifname)) }

  lemma {:induction false} OnlyReadersGiveEvents(p: Plan, r: Rendering, w: World, probe: Probe, s: Step, ifname: string)
    requires InParts(p, r, w, probe, s) || s in UnitReload(p.files)
    ensures !IsEvent(s, ifname)
  {
    SwitchPart(p.switches);
    RemovalPart(p.files);
    RecordPart(p.records);
    if s in ProcessSteps(r, p.files, w, probe) { ProcessPart(r, p.files, w, probe); }
  }

  lemma {:induction false} EventInReaders(r: Rendering, files: seq<FileChange>, links: set<string>, ifname: string)
    ensures (exists s :: s in NetworkdSteps(r, files, links) && IsEvent(s, ifname)) <==>
              ChangedFor(files, Udev) && ifname in links
              && exists l :: l in r.linkFiles && l.ifname == ifname && WasWritten(ChangeFor(files, l.path))
  {
    Planner.TriggerMembers(r.linkFiles, files, links);
    var event := Step(NETWORKD, Run(UdevTrigger(ifname)), true);
    if s :| s in NetworkdSteps(r, files, links) && IsEvent(s, ifname) {
      assert s in TriggerSteps(r.linkFiles, files, links);
      var l :| l in r.linkFiles && Planner.Triggers(s, l, files, links);
      TriggerNames(l.ifname, ifname);
    }
    if l :| (ChangedFor(files, Udev) && ifname in links && l in r.linkFiles
             && l.ifname == ifname && WasWritten(ChangeFor(files, l.path))) {
      assert Planner.Triggers(event, l, files, links);
      assert event in NetworkdSteps(r, files, links) && IsEvent(event, ifname);
    }
  }

  lemma {:induction false} EventAsked(e: Event, w: World, ifname: string)
    requires IsTurn(e)
    ensures Asked(OwnSteps(e, w), OwedKey(EventOf(ifname))) <==> AsksForEvent(e, w, ifname)
  {
    var p, steps := FullPlan(e, w), OwnSteps(e, w);
    EventInReaders(e.rendering, p.files, w.links, ifname);
    if Asked(steps, OwedKey(EventOf(ifname))) {
      var s :| s in steps && KeyOf(s) == OwedKey(EventOf(ifname));
      EventFromReaders(p, e.rendering, w, e.probe, s, ifname);
    }
    if s :| s in NetworkdSteps(e.rendering, p.files, w.links) && IsEvent(s, ifname) { assert s in steps; }
  }

  lemma {:induction false} EventFromReaders(p: Plan, r: Rendering, w: World, probe: Probe, s: Step, ifname: string)
    requires s in Native(p, r, w, probe) && IsEvent(s, ifname)
    ensures s in NetworkdSteps(r, p.files, w.links)
  {
    if InParts(p, r, w, probe, s) || s in UnitReload(p.files) { OnlyReadersGiveEvents(p, r, w, probe, s, ifname); }
  }

  /** After any turn a link's event is owed exactly if its file was to be written or it was
      owed before, the link is there, and it has not run. So it is given up when the link is
      gone, and only then. */
  lemma {:induction false} EventAfter(e: Event, w: World, ifname: string)
    requires IsTurn(e) && '/' !in ifname
    ensures Waits(ResultOf(e, w).world, ifname) <==>
              (AsksForEvent(e, w, ifname) || (Waits(w, ifname) && ifname in w.links))
              && OwedKey(EventOf(ifname)) !in Ran(e, w)
  {
    EventIsOwable(ifname, w.links);
    OwedAfter(e, w, EventOf(ifname));
    EventAsked(e, w, ifname);
  }

  /** Whether an event leaves a link's event owed: a turn does that runs it not, and finds the
      link; nothing else touches what is owed. */
  ghost predicate KeepsWaiting(e: Event, w: World, ifname: string) {
    IsTurn(e) ==> ifname in w.links && OwedKey(EventOf(ifname)) !in Ran(e, w)
  }

  /** Over a run, an event that is owed stays so for as long as every turn finds the link and
      runs it not. */
  lemma {:induction false} EventWaits(worlds: seq<World>, events: seq<Event>, ifname: string, i: nat, j: nat)
    requires NothingLost.Run(worlds, events) && i <= j < |worlds| && '/' !in ifname && Waits(worlds[i], ifname)
    requires forall k :: i <= k < j ==> KeepsWaiting(events[k], worlds[k], ifname)
    ensures Waits(worlds[j], ifname)
  {
    forall k | i <= k < j && Waits(worlds[k], ifname) ensures Waits(worlds[k + 1], ifname) {
      WaitsOn(events[k], worlds[k], worlds[k + 1], ifname);
    }
    WaitsUpTo(worlds, ifname, i, j);
  }

  lemma {:induction false} WaitsUpTo(worlds: seq<World>, ifname: string, i: nat, j: nat)
    requires i <= j < |worlds| && Waits(worlds[i], ifname)
    requires forall k :: i <= k < j && Waits(worlds[k], ifname) ==> Waits(worlds[k + 1], ifname)
    ensures Waits(worlds[j], ifname)
    decreases j
  {
    if i < j { WaitsUpTo(worlds, ifname, i, j - 1); }
  }

  lemma {:induction false} WaitsOn(e: Event, w: World, next: World, ifname: string)
    requires Happens(w, e, next) && '/' !in ifname && Waits(w, ifname) && KeepsWaiting(e, w, ifname)
    ensures Waits(next, ifname)
  {
    if IsTurn(e) { EventAfter(e, w, ifname); }
  }
}
