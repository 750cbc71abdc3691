/** The smallest host on which a process is brought up with what it reads just written, and is
    not started anew. */
module UpAlreadyOnce {
  import opened Orders
  import opened Host
  import opened Planning
  import opened Turns
  import opened PlanFacts
  import opened NothingLost
  import opened TableFacts
  import opened DiskFacts
  import opened Processes

  const CONF_FILE := Path(DnsmasqDir, "dnsmasq.conf")
  const WRITTEN := FileChange(CONF_FILE, Create, NO_CONTENT, false, false)
  const UP := Command("systemctl", ["enable", "--now", "regied-dnsmasq.service"], NoInput)
  const BRING_UP := Step(PROCESSES, Run(UP), false)

  function WithDnsmasq(ruleset: Ruleset): Rendering {
    Rendering([Artifact(CONF_FILE, NO_CONTENT)], {}, [], ruleset, [], [], [], true, [], [])
  }

  /** The unit is up, though there is no configuration for it. */
  function Running(ruleset: Ruleset): World {
    TableFacts.Plain(ruleset, map[]).(active := {"regied-dnsmasq.service"})
  }

  function Submitted(ruleset: Ruleset): Event { Attended(WithDnsmasq(ruleset), [], ASKED, None, ALL_WELL) }

  lemma {:induction false} OneFile(ruleset: Ruleset)
    ensures Files(WithDnsmasq(ruleset), [], map[]) == [WRITTEN]
  {
    var r := WithDnsmasq(ruleset);
    var none: map<Path, Content> := map[];
    assert r.artifacts[1..] == [];
    assert Compare(r.artifacts[0], none) == WRITTEN && Compared(r.artifacts[1..], none) == [];
    var all := Compared(r.artifacts, none) + Reclaimed([], none, Desired(r));
    assert all == [WRITTEN] && all[1..] == [];
    assert Sort(all[1..], PathOrder) == [];
  }

  lemma {:induction false} NobodyElse(r: Rendering, files: seq<FileChange>)
    requires files == [WRITTEN] && r.sessions == []
    ensures SessionNames(r, files) == [] && RemovalSteps(files) == [] && UnitReload(files) == []
    ensures NetworkdSteps(r, files, {}) == []
  {
    assert files[1..] == [];
    assert NamesIn(files[1..], PeersDir) == [] && NamesIn(files[1..], CredentialsDir) == [];
    assert RemovalSteps(files[1..]) == [];
    assert r.sessions + NamesIn(files, PeersDir) + NamesIn(files, CredentialsDir) == [];
  }

  lemma {:induction false} BroughtUp(r: Rendering, w: World)
    requires r.sessions == [] && r.dnsmasq
    ensures ProcessSteps(r, [WRITTEN], w, ASKED) == [BRING_UP]
  {
    NobodyElse(r, [WRITTEN]);
    var s := DnsmasqService(r, [WRITTEN], w, ASKED);
    assert ChangeFor([WRITTEN], CONF_FILE) == WRITTEN;
    assert s.inputs == [WRITTEN];
    assert Planning.Fresh(s);
  }

  lemma {:induction false} OneStep(ruleset: Ruleset)
    ensures var plan := PlanFor(WithDnsmasq(ruleset), [], Running(ruleset), ASKED);
            plan.files == [WRITTEN] && plan.steps == [BRING_UP] && !plan.firewall.apply && plan.failing == []
  {
    var r, w := WithDnsmasq(ruleset), Running(ruleset);
    OneFile(ruleset);
    NobodyElse(r, [WRITTEN]);
    BroughtUp(r, w);
    var f := Firewall(ruleset, [], w, ASKED);
    assert f == FirewallChange(ruleset, [], false);
    assert StepsOf(r, [WRITTEN], [], f, [], w, ASKED) == [BRING_UP];
  }

  /** A turn that succeeds writes the configuration of a unit that is up, and does not start the
      unit anew. */
  lemma {:induction false} UpAlreadyHappens(ruleset: Ruleset)
    ensures var w, e := Running(ruleset), Submitted(ruleset);
            && ResultOf(e, w).ending == Succeeded
            && Declared(Dnsmasq, e.rendering) && Rewritten(Dnsmasq, e.rendering, w)
            && forall k :: 0 <= k < |ResultOf(e, w).trace| ==> !Anew(ResultOf(e, w), k, UnitOf(Dnsmasq))
  {
    var w, e := Running(ruleset), Submitted(ruleset);
    OneStep(ruleset);
    GoesWell(w, FullPlan(e, w));
    assert CONF_FILE in Inputs(Dnsmasq) && e.rendering.artifacts[0] in e.rendering.artifacts;
    assert Differs(e.rendering, w, CONF_FILE);
    assert New(Dnsmasq, e.rendering, e.listing, w);
    StartedAnew(Dnsmasq, e, w);
  }

  lemma {:induction false} GoesWell(w: World, plan: Plan)
    requires plan.files == [WRITTEN] && plan.steps == [BRING_UP] && !plan.firewall.apply
    ensures Turn(w, plan, None, ALL_WELL).ending == Succeeded
  {
    assert StageFrom(w, plan.files, 0, ALL_WELL.stage) == (PutFile(w, CONF_FILE, NO_CONTENT), true);
    var staged, s := PutFile(w, CONF_FILE, NO_CONTENT), plan.steps[0];
    var ran: set<StepKey> := {};
    assert CommitFrom(Effect(staged, s.action), plan.steps, 1, ALL_WELL.commit, ran + {KeyOf(s)}, []).stopped == None;
  }
}
