/** How a plan is put together, loop by loop; each loop is proved to leave what the functions
    of Planning say. */
module Planner {
  import opened Orders
  import opened Host
  import opened Planning
  import opened OwingFacts
  import opened PlanFacts
  import opened Idempotence
  import Safety
  import Effects

  // ----- the comparison --------------------------------------------------------------

  method CompareAll(artifacts: seq<Artifact>, disk: map<Path, Content>) returns (changes: seq<FileChange>)
    ensures changes == Compared(artifacts, disk)
  {
    changes := [];
    for i := 0 to |artifacts|
      invariant changes + Compared(artifacts[i..], disk) == Compared(artifacts, disk)
    {
      assert artifacts[i..][0] == artifacts[i] && artifacts[i..][1..] == artifacts[i + 1..];
      changes := changes + [Compare(artifacts[i], disk)];
    }
  }

  method CollectSets(desired: seq<SetElements>, held: map<string, seq<string>>) returns (write: seq<SetElements>)
    ensures write == SetsToWrite(desired, held)
  {
    write := [];
    for i := 0 to |desired|
      invariant write + SetsToWrite(desired[i..], held) == SetsToWrite(desired, held)
    {
      var want := desired[i];
      assert desired[i..][0] == want && desired[i..][1..] == desired[i + 1..];
      if want.name in held && held[want.name] != want.elements { write := write + [want]; }
    }
  }

  method CollectReclaimed(listing: seq<Path>, disk: map<Path, Content>, desired: set<Path>)
      returns (changes: seq<FileChange>)
    ensures changes == Reclaimed(listing, disk, desired)
  {
    changes := [];
    for i := 0 to |listing|
      invariant changes + Reclaimed(listing[i..], disk, desired) == Reclaimed(listing, disk, desired)
    {
      assert listing[i..][0] == listing[i] && listing[i..][1..] == listing[i + 1..];
      if listing[i] in disk && listing[i] !in desired && IsOurs(listing[i], disk[listing[i]]) {
        changes := changes + [RemovalOf(listing[i])];
      }
    }
  }

  method CollectSwitches(wants: seq<Switch>, held: map<string, string>) returns (changes: seq<SwitchChange>)
    ensures changes == SwitchChanges(wants, held)
  {
    changes := [];
    for i := 0 to |wants|
      invariant changes + SwitchChanges(wants[i..], held) == SwitchChanges(wants, held)
    {
      assert wants[i..][0] == wants[i] && wants[i..][1..] == wants[i + 1..];
      if wants[i].key in held { changes := changes + [SwitchChange(wants[i], held[wants[i].key] != wants[i].value)]; }
    }
  }

  method CollectRecords(records: seq<Record>, written: map<RecordId, Record>) returns (changes: seq<RecordChange>)
    ensures changes == RecordChanges(records, written)
  {
    changes := [];
    for i := 0 to |records|
      invariant changes + RecordChanges(records[i..], written) == RecordChanges(records, written)
    {
      assert records[i..][0] == records[i] && records[i..][1..] == records[i + 1..];
      changes := changes + [RecordChange(records[i], MustWrite(records[i], written))];
    }
  }

  /** Whether the table is replaced and which sets are written are asked of the host apart: the
      table when it is known to be gone or its text moved, and a set when it can be read and
      differs, or holds something and the table is replaced. */
  method CompareFirewall(ruleset: Ruleset, desired: seq<SetElements>, w: World, probe: Probe)
      returns (change: FirewallChange)
    ensures change == Firewall(ruleset, desired, w, probe)
    ensures change.apply <==> (probe.tables && w.table.None?) || w.installed != Some(ruleset)
    ensures forall s :: s in change.elements <==> s in desired && ToWrite(s, change.apply, w, probe)
  {
    var apply := (probe.tables && w.table.None?) || w.installed != Some(ruleset);
    var write := [];
    if apply {
      write := CollectSets(desired, EmptySets(desired));
      ToWriteMembers(desired, EmptySets(desired));
    } else if probe.sets && w.table.Some? {
      write := CollectSets(desired, w.table.value.sets);
      ToWriteMembers(desired, w.table.value.sets);
    }
    change := FirewallChange(ruleset, write, apply);
  }

  /** What has a set written: something to hold in a table about to be replaced, or a
      difference from what the kernel can be read to hold. */
  predicate ToWrite(s: SetElements, replaced: bool, w: World, probe: Probe) {
    if replaced then s.elements != []
    else probe.sets && w.table.Some? && s.name in w.table.value.sets && w.table.value.sets[s.name] != s.elements
  }

  // ----- the steps -------------------------------------------------------------------

  method SwitchesToSet(switches: seq<SwitchChange>) returns (steps: seq<Step>)
    ensures steps == SwitchSteps(switches)
  {
    steps := [];
    for i := 0 to |switches|
      invariant steps + SwitchSteps(switches[i..]) == SwitchSteps(switches)
    {
      assert switches[i..][0] == switches[i] && switches[i..][1..] == switches[i + 1..];
      if switches[i].changed {
        steps := steps + [Step(KERNEL, SetSwitch(switches[i].switch_.key, switches[i].switch_.value), false)];
      }
    }
  }

  method LinksToTrigger(linkFiles: seq<UdevLink>, files: seq<FileChange>, links: set<string>) returns (steps: seq<Step>)
    ensures steps == TriggerSteps(linkFiles, files, links)
  {
    steps := [];
    for i := 0 to |linkFiles|
      invariant steps + TriggerSteps(linkFiles[i..], files, links) == TriggerSteps(linkFiles, files, links)
    {
      assert linkFiles[i..][0] == linkFiles[i] && linkFiles[i..][1..] == linkFiles[i + 1..];
      if WasWritten(ChangeFor(files, linkFiles[i].path)) && linkFiles[i].ifname in links {
        steps := steps + [Step(NETWORKD, Run(UdevTrigger(linkFiles[i].ifname)), true)];
      }
    }
  }

  method NamesUnder(files: seq<FileChange>, dir: Dir) returns (names: seq<string>)
    ensures names == NamesIn(files, dir)
    ensures forall n :: n in names <==> exists c :: c in files && c.path.dir == dir && TrimConf(c.path.name) == n
  {
    names := [];
    for i := 0 to |files|
      invariant names + NamesIn(files[i..], dir) == NamesIn(files, dir)
    {
      assert files[i..][0] == files[i] && files[i..][1..] == files[i + 1..];
      if files[i].path.dir == dir { names := names + [TrimConf(files[i].path.name)]; }
    }
    NamesMembers(files, dir);
  }

  lemma {:induction false} NamesMembers(files: seq<FileChange>, dir: Dir)
    ensures forall n :: n in NamesIn(files, dir) <==>
        exists c :: c in files && c.path.dir == dir && TrimConf(c.path.name) == n
  {
    if files != [] {
      NamesMembers(files[1..], dir);
      assert files == [files[0]] + files[1..];
    }
  }

  /** A session is declared, or still has a file of its own in the plan. */
  predicate IsSession(n: string, r: Rendering, files: seq<FileChange>) {
    n in r.sessions
    || exists c :: c in files && (c.path.dir == PeersDir || c.path.dir == CredentialsDir) && TrimConf(c.path.name) == n
  }

  /** The sessions declared and those a file of the plan still names, each once. */
  method SessionsNamed(r: Rendering, files: seq<FileChange>) returns (names: seq<string>)
    ensures names == SessionNames(r, files) && StrictlyIncreasing(names)
    ensures forall n :: n in names <==> IsSession(n, r, files)
  {
    var peers := NamesUnder(files, PeersDir);
    var credentials := NamesUnder(files, CredentialsDir);
    names := Compact(Sort(r.sessions + peers + credentials, TextLe));
    CanonicalIncreasing(r.sessions + peers + credentials);
  }

  /** What is done to each session of a list, one after the other. */
  method SessionsToSettle(names: seq<string>, r: Rendering, files: seq<FileChange>, w: World, probe: Probe)
      returns (steps: seq<Step>)
    ensures steps == SessionSteps(names, r, files, w, probe)
  {
    steps := [];
    for i := 0 to |names|
      invariant steps + SessionSteps(names[i..], r, files, w, probe) == SessionSteps(names, r, files, w, probe)
    {
      ghost var before := steps;
      assert names[i..][0] == names[i] && names[i..][1..] == names[i + 1..];
      var more := ServiceSteps(SessionService(names[i], r, files, w, probe));
      steps := steps + more;
      Regrouped(before, more, SessionSteps(names[i + 1..], r, files, w, probe));
    }
  }

  method Removals(files: seq<FileChange>) returns (steps: seq<Step>)
    ensures steps == RemovalSteps(files)
  {
    steps := [];
    for i := 0 to |files|
      invariant steps + RemovalSteps(files[i..]) == RemovalSteps(files)
    {
      assert files[i..][0] == files[i] && files[i..][1..] == files[i + 1..];
      if files[i].deferred && files[i].kind == Remove {
        steps := steps + [Step(PROCESSES, RemoveFile(files[i].path), false)];
      }
    }
  }

  method UnitsToRemove(files: seq<FileChange>) returns (steps: seq<Step>)
    ensures steps == DeferredReclaim(files)
    ensures forall c :: c in files && c.deferred && c.kind == Remove ==>
        Step(PROCESSES, RemoveFile(c.path), false) in steps
    ensures steps != [] ==> steps[|steps| - 1] == ReloadStep(PROCESSES, Systemd)
  {
    steps := Removals(files);
    RemovalPart(files);
    if steps != [] { steps := steps + [ReloadStep(PROCESSES, Systemd)]; }
  }

  method RecordsToWrite(records: seq<RecordChange>) returns (steps: seq<Step>)
    ensures steps == RecordSteps(records)
  {
    steps := [];
    for i := 0 to |records|
      invariant steps + RecordSteps(records[i..]) == RecordSteps(records)
    {
      assert records[i..][0] == records[i] && records[i..][1..] == records[i + 1..];
      if records[i].write { steps := steps + [Step(DNS, WriteRecord(records[i].record), false)]; }
    }
  }

  /** Every step the comparison asks for, phase after phase. */
  method CollectSteps(r: Rendering, files: seq<FileChange>, switches: seq<SwitchChange>, f: FirewallChange,
      records: seq<RecordChange>, w: World, probe: Probe)
    returns (steps: seq<Step>)
    ensures steps == StepsOf(r, files, switches, f, records, w, probe)
    ensures PhaseSorted(steps)
    ensures forall s :: s in steps && Safety.Installs(s) ==> f.apply && s == Safety.InstallStep(f.ruleset)
  {
    var kernel := SwitchesToSet(switches);
    var networkd := ReadersToTell(r, files, w.links);
    var processes := ProcessesToSettle(r, files, w, probe);
    var removals := UnitsToRemove(files);
    var dns := RecordsToWrite(records);
    var early := FirewallSteps(f) + kernel + networkd + UnitReload(files) + processes;
    steps := early + removals + dns;
    StepsSorted(r, files, switches, f, records, w, probe);
    forall s | s in steps && Safety.Installs(s) ensures f.apply && s == Safety.InstallStep(f.ruleset) {
      InstallsFromFirewall(r, files, switches, f, records, w, probe, s);
    }
  }

  lemma {:induction false} InstallsFromFirewall(r: Rendering, files: seq<FileChange>, switches: seq<SwitchChange>,
      f: FirewallChange, records: seq<RecordChange>, w: World, probe: Probe, s: Step)
    requires s in StepsOf(r, files, switches, f, records, w, probe) && Safety.Installs(s)
    ensures f.apply && s == Safety.InstallStep(f.ruleset)
  {
    var p := Plan(files, switches, f, records, [], [], [], []);
    if s in NetworkdSteps(r, files, w.links) || s in UnitReload(files) {
      OthersReload(p, r, w, s);
    } else {
      PartsInstall(p, r, w, probe, s);
    }
  }

  lemma {:induction false} PartsInstall(p: Plan, r: Rendering, w: World, probe: Probe, s: Step)
    requires InParts(p, r, w, probe, s) && Safety.Installs(s)
    ensures p.firewall.apply && s == Safety.InstallStep(p.firewall.ruleset)
  {
    SwitchPart(p.switches);
    RemovalPart(p.files);
    RecordPart(p.records);
    if s in ProcessSteps(r, p.files, w, probe) { ProcessPart(r, p.files, w, probe); }
  }

  lemma {:induction false} TriggerMembers(linkFiles: seq<UdevLink>, files: seq<FileChange>, links: set<string>)
    ensures forall s :: s in TriggerSteps(linkFiles, files, links) <==>
        exists l :: l in linkFiles && Triggers(s, l, files, links)
  {
    if linkFiles != [] {
      var first := linkFiles[0];
      TriggerMembers(linkFiles[1..], files, links);
      assert linkFiles == [first] + linkFiles[1..];
      forall s
        ensures s in TriggerSteps(linkFiles, files, links) <==>
                  Triggers(s, first, files, links) || s in TriggerSteps(linkFiles[1..], files, links)
      {}
    }
  }

  /** The event of a link whose file was written and which is there. */
  predicate Triggers(s: Step, l: UdevLink, files: seq<FileChange>, links: set<string>) {
    WasWritten(ChangeFor(files, l.path)) && l.ifname in links && s == Step(NETWORKD, Run(UdevTrigger(l.ifname)), true)
  }

  /** networkd and udev are told exactly when a file they read changed, and a link gets an event
      exactly when udev is told, its own file was written, and it is there. */
  method ReadersToTell(r: Rendering, files: seq<FileChange>, links: set<string>) returns (steps: seq<Step>)
    ensures steps == NetworkdSteps(r, files, links)
    ensures forall s :: s in steps <==>
      || (s == ReloadStep(NETWORKD, Networkd) && ChangedFor(files, Networkd))
      || (s == ReloadStep(NETWORKD, Udev) && ChangedFor(files, Udev))
      || (ChangedFor(files, Udev) && exists l :: l in r.linkFiles && Triggers(s, l, files, links))
  {
    var triggers := LinksToTrigger(r.linkFiles, files, links);
    TriggerMembers(r.linkFiles, files, links);
    steps := if ChangedFor(files, Networkd) then [ReloadStep(NETWORKD, Networkd)] else [];
    if ChangedFor(files, Udev) { steps := steps + ([ReloadStep(NETWORKD, Udev)] + triggers); }
  }

  /** What is done is done to a session declared or still named by a file, or to dnsmasq; and
      nothing the declaration asks for is stopped. */
  method ProcessesToSettle(r: Rendering, files: seq<FileChange>, w: World, probe: Probe) returns (steps: seq<Step>)
    ensures steps == ProcessSteps(r, files, w, probe)
    ensures forall t :: t in steps <==>
      || (exists n :: IsSession(n, r, files) && t in ServiceSteps(SessionService(n, r, files, w, probe)))
      || t in ServiceSteps(DnsmasqService(r, files, w, probe))
    ensures forall t, n :: t in steps && n in r.sessions ==> !Effects.Stops(t, PppoeUnit(n))
    ensures r.dnsmasq ==> forall t :: t in steps ==> !Effects.Stops(t, DNSMASQ_UNIT)
  {
    var names := SessionsNamed(r, files);
    var sessions := SessionsToSettle(names, r, files, w, probe);
    steps := sessions + ServiceSteps(DnsmasqService(r, files, w, probe));
    forall t
      ensures t in sessions <==>
                exists n :: IsSession(n, r, files) && t in ServiceSteps(SessionService(n, r, files, w, probe))
    {
      SessionMembers(names, r, files, w, probe, t);
    }
    forall t, n | t in steps && n in r.sessions ensures !Effects.Stops(t, PppoeUnit(n)) {
      NoSessionStop(r, files, w, probe, t, n);
    }
    if r.dnsmasq {
      forall t | t in steps ensures !Effects.Stops(t, DNSMASQ_UNIT) { NoDnsmasqStop(r, files, w, probe, t); }
    }
  }

  // ----- what earlier turns left owed ------------------------------------------------

  method PresentKeys(steps: seq<Step>) returns (present: set<StepKey>)
    ensures present == KeysOf(steps)
  {
    present := {};
    for i := 0 to |steps|
      invariant present == KeysOf(steps[..i])
    {
      assert steps[..i + 1] == steps[..i] + [steps[i]];
      present := present + {KeyOf(steps[i])};
    }
    assert steps[..|steps|] == steps;
  }

  method OwedSteps(steps: seq<Step>) returns (owed: seq<OwedStep>)
    ensures owed == OwedOf(steps)
  {
    owed := [];
    for i := 0 to |steps|
      invariant owed + OwedOf(steps[i..]) == OwedOf(steps)
    {
      assert steps[i..][0] == steps[i] && steps[i..][1..] == steps[i + 1..];
      if steps[i].owed && steps[i].action.Run? {
        owed := owed + [OwedStep(steps[i].phase, steps[i].action.command.name, steps[i].action.command.args)];
      }
    }
  }

  method PutIn(steps: seq<Step>, step: Step) returns (more: seq<Step>)
    ensures more == InsertStep(steps, step)
  {
    var at := 0;
    while at < |steps| && steps[at].phase <= step.phase
      invariant 0 <= at <= |steps| && forall k :: 0 <= k < at ==> steps[k].phase <= step.phase
    { at := at + 1; }
    more := steps[..at] + [step] + steps[at..];
    assert InsertAt(steps, step) == at;
  }

  /** Puts into the plan what earlier turns left owed and it does not already have. */
  method WithOwed(steps: seq<Step>, file: seq<OwedStep>, links: set<string>) returns (at: Owing)
    ensures at == AddOwed(Owing(steps, OwedOf(steps)), file, links)
  {
    var present := PresentKeys(steps);
    var owed := OwedSteps(steps);
    at := Owing(steps, owed);
    for i := 0 to |file|
      invariant present == KeysOf(at.steps)
      invariant AddOwed(at, file[i..], links) == AddOwed(Owing(steps, OwedOf(steps)), file, links)
    {
      assert file[i..][0] == file[i] && file[i..][1..] == file[i + 1..];
      var step := StepFor(file[i]);
      if KeyOf(step) !in present && Owable(file[i].name, file[i].args) && !LinkGone(file[i], links) {
        InsertMembers(at.steps, step);
        present := present + {KeyOf(step)};
        var more := PutIn(at.steps, step);
        at := Owing(more, at.owed + [file[i]]);
      }
    }
  }

  // ----- the whole plan --------------------------------------------------------------

  /** Reads the host and works out what would have to change: the reader of every file that
      changed is told and that is noted as owed, the steps are in phase order, a reload follows
      every unit taken away, and what earlier turns left owed is run, if its link is there. */
  method MakePlan(r: Rendering, listing: seq<Path>, w: World, probe: Probe) returns (plan: Plan)
    ensures plan == PlanFor(r, listing, w, probe)
    ensures PhaseSorted(plan.steps) && ReadersTold(plan.files, plan.owed) && Backed(plan.owed, plan.steps)
    ensures RemovalsFirst(plan.steps, plan.owed)
    ensures forall o :: o in w.owed && Owable(o.name, o.args) && !LinkGone(o, w.links) ==>
        OwedKey(o) in KeysOf(plan.steps)
  {
    var compared := CompareAll(r.artifacts, w.disk);
    var reclaimed := CollectReclaimed(listing, w.disk, Desired(r));
    var files := Sort(compared + reclaimed, PathOrder);
    var switches := CollectSwitches(r.switches, w.switches);
    var firewall := CompareFirewall(r.ruleset, r.sets, w, probe);
    var records := CollectRecords(r.records, w.written);
    var steps := CollectSteps(r, files, switches, firewall, records, w, probe);
    var owing := WithOwed(steps, w.owed, w.links);
    plan := Plan(files, switches, firewall, records, owing.steps, owing.owed, r.waiting, []);
    PlanIsSound(r, listing, w, probe);
    forall o | o in w.owed && Owable(o.name, o.args) && !LinkGone(o, w.links) ensures OwedKey(o) in KeysOf(plan.steps) {
      AddOwedKeeps(Owing(steps, OwedOf(steps)), w.owed, w.links, o);
    }
  }
}
