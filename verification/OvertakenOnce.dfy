/** The smallest host on which an event overtakes udev's reload. */
module OvertakenOnce {
  import opened Orders
  import opened Host
  import opened Planning
  import opened Turns
  import opened NothingLost
  import opened TableFacts
  import opened LinkEvents
  import opened Overtaking

  const LINK_FILE := Path(NetworkdDir, "50-regied-lan0.link")
  const LINK_TEXT := Content(["[Link]"], 0)

  /** A declaration of one link file beside a ruleset, and a host with the link and the table. */
  function OneLink(ruleset: Ruleset): Rendering {
    Rendering([Artifact(LINK_FILE, LINK_TEXT)], {}, [UdevLink(LINK_FILE, "lan0")], ruleset, [], [], [], false, [], [])
  }

  function WithLink(ruleset: Ruleset): World { TableFacts.Plain(ruleset, map[]).(links := {"lan0"}) }

  function HeldTurn(ruleset: Ruleset): Event {
    Unattended(OneLink(ruleset), [], ASKED, map[UDEV_RELOAD := Retry(1, 5)], 3, ALL_WELL)
  }

  const EVENT := Step(NETWORKD, Run(UdevTrigger("lan0")), true)
  const WRITTEN := FileChange(LINK_FILE, Create, LINK_TEXT, false, false)

  lemma {:induction false} UdevReadsIt()
    ensures ReaderOf(LINK_FILE) == Some(Udev)
  {
    assert LINK_FILE.name[|LINK_FILE.name| - |LINK_FILE_EXTENSION|..] == LINK_FILE_EXTENSION;
  }

  lemma {:induction false} OneLinkFiles(r: Rendering)
    requires r.artifacts == [Artifact(LINK_FILE, LINK_TEXT)]
    ensures Files(r, [], map[]) == [WRITTEN]
  {
    assert r.artifacts[1..] == [];
    var none: map<Path, Content> := map[];
    assert Compare(r.artifacts[0], none) == WRITTEN && Compared(r.artifacts[1..], none) == [];
    var all := Compared(r.artifacts, none) + Reclaimed([], none, Desired(r));
    assert all == [WRITTEN] && all[1..] == [];
    assert Sort(all[1..], PathOrder) == [];
  }

  lemma {:induction false} OnlyUdevIsTold(r: Rendering)
    requires r.linkFiles == [UdevLink(LINK_FILE, "lan0")]
    ensures NetworkdSteps(r, [WRITTEN], {"lan0"}) == [ReloadStep(NETWORKD, Udev), EVENT]
  {
    UdevReadsIt();
    var files := [WRITTEN];
    assert WRITTEN in files && ChangedFor(files, Udev) && !ChangedFor(files, Networkd);
    assert ChangeFor(files, LINK_FILE) == WRITTEN && r.linkFiles[1..] == [];
    assert TriggerSteps(r.linkFiles[1..], files, {"lan0"}) == [];
    assert TriggerSteps(r.linkFiles, files, {"lan0"}) == [EVENT];
  }

  lemma {:induction false} NobodyElse(files: seq<FileChange>)
    requires files == [WRITTEN]
    ensures NamesIn(files, PeersDir) == [] && NamesIn(files, CredentialsDir) == []
    ensures forall p :: ChangeFor(files, p).kind != Remove
    ensures RemovalSteps(files) == [] && UnitReload(files) == []
  {
    assert files[1..] == [];
    assert NamesIn(files[1..], PeersDir) == [] && NamesIn(files[1..], CredentialsDir) == [];
    assert RemovalSteps(files[1..]) == [];
    forall p ensures ChangeFor(files, p).kind != Remove { assert ChangeFor(files[1..], p).kind == Unchanged; }
  }

  lemma {:induction false} NoProcess(r: Rendering, w: World)
    requires r.sessions == [] && !r.dnsmasq
    ensures ProcessSteps(r, [WRITTEN], w, ASKED) == []
  {
    NobodyElse([WRITTEN]);
    assert r.sessions + NamesIn([WRITTEN], PeersDir) + NamesIn([WRITTEN], CredentialsDir) == [];
    assert SessionNames(r, [WRITTEN]) == [];
    assert !SomethingLeft(DnsmasqService(r, [WRITTEN], w, ASKED));
  }

  lemma {:induction false} OneLinkPlan(ruleset: Ruleset)
    ensures var plan := PlanFor(OneLink(ruleset), [], WithLink(ruleset), ASKED);
            && plan.files == [WRITTEN] && !plan.firewall.apply && plan.failing == []
            && plan.steps == [ReloadStep(NETWORKD, Udev), EVENT]
  {
    var r, w := OneLink(ruleset), WithLink(ruleset);
    OneLinkFiles(r);
    OnlyUdevIsTold(r);
    NobodyElse([WRITTEN]);
    NoProcess(r, w);
    var f := Firewall(ruleset, [], w, ASKED);
    assert f == FirewallChange(ruleset, [], false);
    assert StepsOf(r, [WRITTEN], [], f, [], w, ASKED) == [ReloadStep(NETWORKD, Udev), EVENT];
  }

  /** One new link file, everything going well, and udev's reload held back: the turn succeeds,
      the link is given its event while udev is behind, the event is owed no more, and udev has
      still not read the file. */
  lemma {:induction false} OvertakingHappens(ruleset: Ruleset)
    ensures var w, e := WithLink(ruleset), HeldTurn(ruleset);
            var t := ResultOf(e, w);
            && Kept(w) && w.owed == [] && t.ending == Succeeded
            && |t.trace| == 1 && t.trace[0].step == EVENT && Behind(t.trace[0].before)
            && OwedKey(EventOf("lan0")) in Ran(e, w) && !Waits(t.world, "lan0") && Unread(t.world, LINK_FILE)
  {
    var w, e := WithLink(ruleset), HeldTurn(ruleset);
    OneLinkPlan(ruleset);
    OnlyTheEvent(FullPlan(e, w).steps, e.retries);
    assert FullPlan(e, w).files == [WRITTEN] && Deferring([WRITTEN]) == [WRITTEN];
    GoesWell(w, PlanOf(e, w));
    EventAfter(e, w, "lan0");
  }

  lemma {:induction false} GoesWell(w: World, plan: Plan)
    requires plan.files == [WRITTEN] && plan.steps == [EVENT] && !plan.firewall.apply
    requires w.disk == w.seen == map[]
    ensures var (t, ran) := StageAndCommit(w, plan, None, ALL_WELL);
            && t.ending == Succeeded && ran == {KeyOf(EVENT)} && |t.trace| == 1
            && t.trace[0].step == EVENT && Behind(t.trace[0].before) && Unread(t.world, LINK_FILE)
  {
    UdevReadsIt();
    OneFileStaged(w);
    OneStepCommitted(PutFile(w, LINK_FILE, LINK_TEXT));
    assert Unread(PutFile(w, LINK_FILE, LINK_TEXT), LINK_FILE);
  }

  lemma {:induction false} OnlyTheEvent(steps: seq<Step>, retries: map<Name, Retry>)
    requires steps == [ReloadStep(NETWORKD, Udev), EVENT] && retries == map[UDEV_RELOAD := Retry(1, 5)]
    ensures Filter(steps, 0, 3, Filtered([], [], retries, {})).kept == [EVENT]
  {
    assert Describe(steps[0]) == UDEV_RELOAD && Held(retries, UDEV_RELOAD, 3);
    assert |Describe(EVENT).args| == 4 && !Held(retries, Describe(EVENT), 3);
    var first := Filtered([], [], retries, {});
    var second := first.(dropped := first.dropped + [HeldBack(steps[0])], present := first.present + {UDEV_RELOAD});
    FirstIsHeld(steps, first);
    LastIsKept(steps, second);
  }

  lemma {:induction false} FirstIsHeld(steps: seq<Step>, at: Filtered)
    requires |steps| == 2 && !UnattendedForbidden(steps[0]) && Held(at.retries, Describe(steps[0]), 3)
    ensures Filter(steps, 0, 3, at) ==
              Filter(steps, 1, 3, at.(dropped := at.dropped + [HeldBack(steps[0])],
                                      present := at.present + {Describe(steps[0])}))
  {}

  lemma {:induction false} LastIsKept(steps: seq<Step>, at: Filtered)
    requires |steps| == 2 && !UnattendedForbidden(steps[1]) && !Held(at.retries, Describe(steps[1]), 3)
    ensures Filter(steps, 1, 3, at).kept == at.kept + [steps[1]]
  {
    var step, name := steps[1], Describe(steps[1]);
    var last := Filtered(at.kept + [step], at.dropped, at.retries[name := NextRetry(at.retries, name, 3)],
        at.present + {name});
    assert Filter(steps, 1, 3, at) == Filter(steps, 2, 3, last);
  }

  lemma {:induction false} OneFileStaged(w: World)
    ensures StageFrom(w, [WRITTEN], 0, ALL_WELL.stage) == (PutFile(w, LINK_FILE, LINK_TEXT), true)
  {}

  lemma {:induction false} OneStepCommitted(w: World)
    ensures CommitFrom(w, [EVENT], 0, ALL_WELL.commit, {}, []) ==
              Committed(w, {KeyOf(EVENT)}, [], None, [Attempt(EVENT, w, true)])
  {
    assert Effect(w, EVENT.action) == w;
    assert CommitFrom(w, [EVENT], 1, ALL_WELL.commit, {} + {KeyOf(EVENT)}, []).trace == [];
  }
}
