/** The smallest host on which an unattended turn reports converged and leaves a file that
    nothing asks for. */
module LeftOverOnce {
  import opened Orders
  import opened Host
  import opened Planning
  import opened Turns
  import opened PlanFacts
  import opened NothingLost
  import opened TableFacts
  import opened DiskFacts

  const OLD_FILE := Path(NetworkdDir, "50-regied-old.network")
  const REMOVAL := FileChange(OLD_FILE, Remove, NO_CONTENT, false, true)

  function Once(ruleset: Ruleset): World {
    TableFacts.Plain(ruleset, map[]).(disk := map[OLD_FILE := NO_CONTENT], seen := map[OLD_FILE := NO_CONTENT])
  }

  function Tick(ruleset: Ruleset): Event { Unattended(Bare(ruleset, []), [OLD_FILE], ASKED, map[], 0, ALL_WELL) }

  lemma {:induction false} NetworkdReadsIt()
    ensures ReaderOf(OLD_FILE) == Some(Networkd)
  {
    assert OLD_FILE.name[|OLD_FILE.name| - |LINK_FILE_EXTENSION|] == 't' && LINK_FILE_EXTENSION[0] == '.';
  }

  lemma {:induction false} ItIsLeftOver(ruleset: Ruleset)
    ensures LeftOver(Bare(ruleset, []), [OLD_FILE], Once(ruleset), OLD_FILE)
  {
    assert OLD_FILE.name[..|"50-regied-"|] == "50-regied-";
  }

  lemma {:induction false} OneRemoval(ruleset: Ruleset)
    ensures Files(Bare(ruleset, []), [OLD_FILE], Once(ruleset).disk) == [REMOVAL]
  {
    var r, w := Bare(ruleset, []), Once(ruleset);
    ItIsLeftOver(ruleset);
    LeftOverIsReclaimed(r, [OLD_FILE], w, OLD_FILE);
    assert [OLD_FILE][1..] == [] && Reclaimed([], w.disk, Desired(r)) == [];
    var all := Compared(r.artifacts, w.disk) + Reclaimed([OLD_FILE], w.disk, Desired(r));
    assert all == [REMOVAL] && all[1..] == [];
    assert Sort(all[1..], PathOrder) == [];
  }

  lemma {:induction false} NobodyElse(files: seq<FileChange>)
    requires files == [REMOVAL]
    ensures NamesIn(files, PeersDir) == [] && NamesIn(files, CredentialsDir) == []
    ensures RemovalSteps(files) == [] && UnitReload(files) == []
  {
    assert files[1..] == [];
    assert NamesIn(files[1..], PeersDir) == [] && NamesIn(files[1..], CredentialsDir) == [];
    assert RemovalSteps(files[1..]) == [];
  }

  lemma {:induction false} NoProcess(r: Rendering, w: World)
    requires r.sessions == [] && !r.dnsmasq
    ensures ProcessSteps(r, [REMOVAL], w, ASKED) == []
  {
    NobodyElse([REMOVAL]);
    assert r.sessions + NamesIn([REMOVAL], PeersDir) + NamesIn([REMOVAL], CredentialsDir) == [];
    assert SessionNames(r, [REMOVAL]) == [];
    assert ChangeFor([REMOVAL][1..], Path(UnitDir, DNSMASQ_UNIT)).kind == Unchanged;
    assert ChangeFor([REMOVAL][1..], Path(DnsmasqDir, "dnsmasq.conf")).kind == Unchanged;
    assert !SomethingLeft(DnsmasqService(r, [REMOVAL], w, ASKED));
  }

  lemma {:induction false} OnlyNetworkdIsTold(r: Rendering, links: set<string>)
    ensures NetworkdSteps(r, [REMOVAL], links) == [ReloadStep(NETWORKD, Networkd)]
  {
    NetworkdReadsIt();
    var files := [REMOVAL];
    assert REMOVAL in files && ChangedFor(files, Networkd) && !ChangedFor(files, Udev);
  }

  lemma {:induction false} OneReload(ruleset: Ruleset)
    ensures var plan := PlanFor(Bare(ruleset, []), [OLD_FILE], Once(ruleset), ASKED);
            && plan.files == [REMOVAL] && plan.steps == [ReloadStep(NETWORKD, Networkd)]
            && plan.failing == [] && plan.waiting == [] && !plan.firewall.apply
  {
    var r, w := Bare(ruleset, []), Once(ruleset);
    OneRemoval(ruleset);
    OnlyNetworkdIsTold(r, w.links);
    NobodyElse([REMOVAL]);
    NoProcess(r, w);
    var f := Firewall(ruleset, [], w, ASKED);
    assert f == FirewallChange(ruleset, [], false);
    assert StepsOf(r, [REMOVAL], [], f, [], w, ASKED) == [ReloadStep(NETWORKD, Networkd)];
  }

  /** A file of regied's nothing asks for, and nothing else to do: the turn reports converged, and
      the file is there. */
  lemma {:induction false} LeftOverHappens(ruleset: Ruleset)
    ensures var w, e := Once(ruleset), Tick(ruleset);
            && LeftOver(e.rendering, e.listing, w, OLD_FILE)
            && StateOf(PlanOf(e, w), ResultOf(e, w)) == Converged && OLD_FILE in ResultOf(e, w).world.disk
  {
    var w, e := Once(ruleset), Tick(ruleset);
    ItIsLeftOver(ruleset);
    OneReload(ruleset);
    var full, reload := FullPlan(e, w), ReloadStep(NETWORKD, Networkd);
    KeptWhole(full.steps);
    GoesWell(w, PlanOf(e, w));
  }

  lemma {:induction false} KeptWhole(steps: seq<Step>)
    requires steps == [ReloadStep(NETWORKD, Networkd)]
    ensures var f := Filter(steps, 0, 0, Filtered([], [], map[], {})); f.kept == steps && f.dropped == []
  {
    var none: map<Name, Retry> := map[];
    var nobody: set<Name> := {};
    var name := Describe(steps[0]);
    assert Filter(steps, 0, 0, Filtered([], [], none, nobody)) ==
        Filter(steps, 1, 0, Filtered([] + [steps[0]], [], none[name := NextRetry(none, name, 0)], nobody + {name}));
  }

  lemma {:induction false} GoesWell(w: World, plan: Plan)
    requires plan.steps == [ReloadStep(NETWORKD, Networkd)] && plan.files == [REMOVAL.(deferred := true)]
    requires plan.failing == [] && plan.waiting == [] && !plan.firewall.apply && OLD_FILE in w.disk
    ensures var t := Turn(w, plan, None, ALL_WELL); StateOf(plan, t) == Converged && OLD_FILE in t.world.disk
  {
    assert StageFrom(w, plan.files, 0, ALL_WELL.stage) == (w, true);
    var s := plan.steps[0];
    var ran: set<StepKey> := {};
    assert CommitFrom(Effect(w, s.action), plan.steps, 1, ALL_WELL.commit, ran + {KeyOf(s)}, []).refused == [];
    assert Effect(w, s.action).disk == w.disk;
  }
}
