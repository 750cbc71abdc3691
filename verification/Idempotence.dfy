/** After a submitted turn that succeeds, the next plan from the same declaration and the same
    answers of the host changes nothing: exactly when every set it wrote is in the order a
    set is read back in. */
module Idempotence {
  import opened Orders
  import opened Host
  import opened Planning
  import opened Turns
  import opened OwingFacts
  import opened PlanFacts
  import opened NothingLost
  import opened Safety
  import opened Effects

  // ----- what validation and the renderers guarantee ---------------------------------

  predicate HasArtifact(r: Rendering, p: Path) { exists a :: a in r.artifacts && a.path == p }

  ghost predicate WellFormed(r: Rendering) {
    && DistinctPaths(r.artifacts)
    && (forall a :: a in r.artifacts ==> a.path !in r.withheld)
    && DistinctSets(r.sets)
    && (forall s :: s in r.sets ==> s.name in r.ruleset.declared && r.ruleset.declared[s.name] == [])
    && (forall a, b :: a in r.switches && b in r.switches && a.key == b.key ==> a == b)
    && (forall a, b :: a in r.records && b in r.records && a.id == b.id ==> a == b)
    && (forall n :: n in r.sessions ==> HasArtifact(r, Path(PeersDir, n + CONF)))
    && (r.dnsmasq ==> HasArtifact(r, Path(DnsmasqDir, "dnsmasq.conf")))
  }

  // ----- files -----------------------------------------------------------------------

  /** Two changes of one path are one change. */
  ghost predicate Consistent(files: seq<FileChange>) {
    forall c, d :: c in files && d in files && c.path == d.path ==> c == d
  }

  ghost predicate Rendered(c: FileChange, r: Rendering, disk: map<Path, Content>) {
    exists a :: a in r.artifacts && c == Compare(a, disk)
  }

  lemma {:induction false} RenderedIsDesired(c: FileChange, r: Rendering, disk: map<Path, Content>)
    requires Rendered(c, r, disk)
    ensures c.path in Desired(r)
  {}

  ghost predicate FromPlan(c: FileChange, r: Rendering, disk: map<Path, Content>) {
    Rendered(c, r, disk) || (c.path !in Desired(r) && c == RemovalOf(c.path))
  }

  lemma {:induction false} PairConsistent(c: FileChange, d: FileChange, r: Rendering, disk: map<Path, Content>)
    requires DistinctPaths(r.artifacts) && FromPlan(c, r, disk) && FromPlan(d, r, disk) && c.path == d.path
    ensures c == d
  {
    if Rendered(c, r, disk) && Rendered(d, r, disk) {
      var a :| a in r.artifacts && c == Compare(a, disk);
      var b :| b in r.artifacts && d == Compare(b, disk);
    } else if Rendered(c, r, disk) {
      RenderedIsDesired(c, r, disk);
    } else if Rendered(d, r, disk) {
      RenderedIsDesired(d, r, disk);
    }
  }

  lemma {:induction false} FilesConsistent(r: Rendering, listing: seq<Path>, disk: map<Path, Content>)
    requires DistinctPaths(r.artifacts)
    ensures Consistent(Files(r, listing, disk))
    ensures forall c :: c in Files(r, listing, disk) ==> FromPlan(c, r, disk)
  {
    FileMembers(r, listing, disk);
    var files := Files(r, listing, disk);
    forall c | c in files ensures FromPlan(c, r, disk) {}
    forall c, d | c in files && d in files && c.path == d.path ensures c == d { PairConsistent(c, d, r, disk); }
  }

  /** What staging leaves at one path: the change of that path, if one touches it. */
  ghost predicate StagedAt(before: World, after: World, files: seq<FileChange>, i: nat, p: Path)
    requires i <= |files|
  {
    && (forall k :: i <= k < |files| && files[k].path == p && WasWritten(files[k]) ==>
          p in after.disk && after.disk[p] == files[k].content)
    && (forall k :: i <= k < |files| && files[k].path == p && files[k].kind == Remove && !files[k].deferred ==>
          p !in after.disk)
    && ((forall k :: i <= k < |files| && files[k].path == p ==> !Touches(files[k])) ==>
          (p in after.disk <==> p in before.disk) && (p in after.disk ==> after.disk[p] == before.disk[p]))
  }

  lemma {:induction false} StageDisk(w: World, files: seq<FileChange>, i: nat, ok: nat -> bool, p: Path)
    requires i <= |files| && Consistent(files) && StageFrom(w, files, i, ok).1
    ensures StagedAt(w, StageFrom(w, files, i, ok).0, files, i, p)
    decreases |files| - i
  {
    if i < |files| {
      var next, after := StageOne(w, files[i]), StageFrom(w, files, i, ok).0;
      StageDisk(next, files, i + 1, ok, p);
      assert files[i] in files;
      assert forall k :: i <= k < |files| && files[k].path == files[i].path ==>
          files[k] in files && files[k] == files[i];
    }
  }

  lemma {:induction false} StageLeaves(w: World, files: seq<FileChange>, i: nat, ok: nat -> bool)
    requires i <= |files|
    ensures var s := StageFrom(w, files, i, ok).0; s == w.(disk := s.disk, foreign := s.foreign)
    decreases |files| - i
  {
    if i < |files| && !(Touches(files[i]) && !ok(i)) { StageLeaves(StageOne(w, files[i]), files, i + 1, ok); }
  }

  // ----- the steps of the whole plan, by kind ----------------------------------------

  ghost predicate InParts(p: Plan, r: Rendering, w: World, probe: Probe, s: Step) {
    s in FirewallSteps(p.firewall) || s in SwitchSteps(p.switches) || s in ProcessSteps(r, p.files, w, probe)
    || s in DeferredReclaim(p.files) || s in RecordSteps(p.records)
  }

  function Native(p: Plan, r: Rendering, w: World, probe: Probe): seq<Step> {
    StepsOf(r, p.files, p.switches, p.firewall, p.records, w, probe)
  }

  lemma {:induction false} OthersReload(p: Plan, r: Rendering, w: World, s: Step)
    requires s in NetworkdSteps(r, p.files, w.links) || s in UnitReload(p.files)
    ensures Reloading(s)
  {
    if s in NetworkdSteps(r, p.files, w.links) { NetworkdReloads(s, r, p.files, w.links); }
  }

  lemma {:induction false} NetworkdReloads(s: Step, r: Rendering, files: seq<FileChange>, links: set<string>)
    requires s in NetworkdSteps(r, files, links)
    ensures Reloading(s)
  {
    TriggerPart(r.linkFiles, files, links);
  }

  /** A step of the plan asked for by the comparison is in the plan as a whole. */
  lemma {:induction false} PartsIn(r: Rendering, listing: seq<Path>, w: World, probe: Probe, s: Step)
    requires InParts(PlanFor(r, listing, w, probe), r, w, probe, s)
    ensures s in PlanFor(r, listing, w, probe).steps
  {
    var p := PlanFor(r, listing, w, probe);
    var steps := Native(p, r, w, probe);
    AddOwedGrows(Owing(steps, OwedOf(steps)), w.owed, w.links);
  }

  /** Every step of the plan is asked for by the comparison, or has something read again. */
  lemma {:induction false} PartsOf(r: Rendering, listing: seq<Path>, w: World, probe: Probe, s: Step)
    requires s in PlanFor(r, listing, w, probe).steps
    ensures InParts(PlanFor(r, listing, w, probe), r, w, probe, s) || Reloading(s)
  {
    var p := PlanFor(r, listing, w, probe);
    var steps := Native(p, r, w, probe);
    AddOwedGrows(Owing(steps, OwedOf(steps)), w.owed, w.links);
    if s in steps {
      if s in NetworkdSteps(r, p.files, w.links) || s in UnitReload(p.files) { OthersReload(p, r, w, s); }
    } else {
      var o :| o in w.owed && s == StepFor(o) && Owable(o.name, o.args);
      OwableReloads(o);
    }
  }

  /** A step that only has something read again, or given an event. */
  predicate Reloading(s: Step) {
    && s.action.Run? && s.action.command.stdin == NoInput
    && (s.action.command.name == "networkctl" || s.action.command.name == "udevadm"
       || s.action.command == ReloadOf(Systemd))
  }

  lemma {:induction false} OwableReloads(o: OwedStep)
    requires Owable(o.name, o.args)
    ensures Reloading(StepFor(o))
  {}

  // ----- the world after a turn that succeeds ----------------------------------------

  /** The turn of a submitted plan, all of which succeeded. */
  ghost predicate AllWent(w: World, plan: Plan, declaration: Option<string>, luck: Luck) {
    var t := Turn(w, plan, declaration, luck);
    t.ending == Succeeded && t.failing == [] && t.recorded
  }

  /** After such a turn the world is what staging left, then every step in turn. */
  lemma {:induction false} WorldAfter(w: World, plan: Plan, declaration: Option<string>, luck: Luck)
    requires AllWent(w, plan, declaration, luck) && !Empty(plan)
    ensures var (staged, ok) := StageFrom(w, plan.files, 0, luck.stage);
            var run := RunAll(Accepting(staged, declaration), plan.steps);
            var after := Turn(w, plan, declaration, luck).world;
            && ok
            && after == run.(owed := after.owed,
                 installed := if plan.firewall.apply then Some(plan.firewall.ruleset) else run.installed)
  {
    var (staged, ok) := StageFrom(w, plan.files, 0, luck.stage);
    var start := Accepting(staged, declaration);
    var c := CommitFrom(start, plan.steps, 0, luck.commit, {}, []);
    RefusalsLength(c.refused);
    CommitIsRunAll(start, plan.steps, 0, luck.commit, {}, []);
    assert plan.steps[0..] == plan.steps;
  }

  /** The parts of the world a succeeded turn settles, over any plan. */
  ghost predicate Follows(w: World, plan: Plan, after: World) {
    && after.switches == RunAll(w, plan.steps).switches
    && after.written == RunAll(w, plan.steps).written
    && after.active == RunAll(w, plan.steps).active
    && after.table == RunAll(w, plan.steps).table
    && after.links == w.links
    && after.installed == (if plan.firewall.apply then Some(plan.firewall.ruleset) else w.installed)
  }

  predicate SameButFiles(w: World, v: World) {
    && w.switches == v.switches && w.written == v.written && w.active == v.active && w.table == v.table
    && w.links == v.links && w.installed == v.installed
  }

  lemma {:induction false} EffectSame(w: World, v: World, a: Action)
    requires SameButFiles(w, v)
    ensures SameButFiles(Effect(w, a), Effect(v, a))
  {
    if a.Run? { DeedSame(w, v, DeedOf(a.command)); }
  }

  lemma {:induction false} DeedSame(w: World, v: World, deed: Deed)
    requires SameButFiles(w, v)
    ensures SameButFiles(Do(w, deed), Do(v, deed))
  {}

  /** Two worlds that differ in their files alone stay so under any steps. */
  lemma {:induction false} FilesDoNotMatter(w: World, v: World, steps: seq<Step>)
    requires SameButFiles(w, v)
    ensures SameButFiles(RunAll(w, steps), RunAll(v, steps))
    decreases |steps|
  {
    if steps != [] {
      EffectSame(w, v, steps[0].action);
      FilesDoNotMatter(Effect(w, steps[0].action), Effect(v, steps[0].action), steps[1..]);
    }
  }

  lemma {:induction false} TurnFollows(w: World, plan: Plan, declaration: Option<string>, luck: Luck)
    requires AllWent(w, plan, declaration, luck)
    ensures Follows(w, plan, Turn(w, plan, declaration, luck).world)
  {
    if !Empty(plan) {
      var (staged, ok) := StageFrom(w, plan.files, 0, luck.stage);
      WorldAfter(w, plan, declaration, luck);
      StageLeaves(w, plan.files, 0, luck.stage);
      FilesDoNotMatter(w, Accepting(staged, declaration), plan.steps);
      RunAllLeaves(w, plan.steps);
    }
  }

  lemma {:induction false} DiskAfter(w: World, plan: Plan, declaration: Option<string>, luck: Luck, p: Path)
    requires AllWent(w, plan, declaration, luck) && Consistent(plan.files)
    ensures var after := Turn(w, plan, declaration, luck).world;
            && (forall c :: c in plan.files && c.path == p && WasWritten(c)
                              && (forall s :: s in plan.steps ==> s.action != RemoveFile(p)) ==>
                  p in after.disk && after.disk[p] == c.content)
            && (p in after.disk ==> forall s :: s in plan.steps ==> s.action != RemoveFile(p))
            && (p in after.disk ==> forall c :: c in plan.files && c.path == p ==> !(c.kind == Remove && !c.deferred))
            && ((forall c :: c in plan.files && c.path == p ==> !WasWritten(c)) && p in after.disk ==>
                  p in w.disk && after.disk[p] == w.disk[p])
            && ((forall c :: c in plan.files && c.path == p ==> c.kind == Unchanged)
                && p in w.disk && (forall s :: s in plan.steps ==> s.action != RemoveFile(p)) ==>
                  p in after.disk && after.disk[p] == w.disk[p])
  {
    if !Empty(plan) {
      var (staged, ok) := StageFrom(w, plan.files, 0, luck.stage);
      WorldAfter(w, plan, declaration, luck);
      StageDisk(w, plan.files, 0, luck.stage, p);
      RunAllDisk(Accepting(staged, declaration), plan.steps, p);
      assert forall c :: c in plan.files ==> exists k :: 0 <= k < |plan.files| && plan.files[k] == c;
      assert forall k :: 0 <= k < |plan.files| ==> plan.files[k] in plan.files;
    }
  }

  // ----- nothing differs any more: files ---------------------------------------------

  /** A unit that is taken away is one the declaration does not ask for. */
  lemma {:induction false} RemovalsAreUndesired(r: Rendering, listing: seq<Path>, w: World, probe: Probe, p: Path)
    requires DistinctPaths(r.artifacts) && p in Desired(r)
    ensures forall s :: s in PlanFor(r, listing, w, probe).steps ==> s.action != RemoveFile(p)
  {
    var plan := PlanFor(r, listing, w, probe);
    FilesConsistent(r, listing, w.disk);
    forall s | s in plan.steps && s.action.RemoveFile? ensures s.action.path != p {
      PartsOf(r, listing, w, probe, s);
      RemovalOrigin(plan, r, w, probe, s);
      var c :| c in plan.files && c.deferred && c.kind == Remove && c.path == s.action.path;
      UndesiredRemoval(c, r, w.disk);
    }
  }

  lemma {:induction false} UndesiredRemoval(c: FileChange, r: Rendering, disk: map<Path, Content>)
    requires FromPlan(c, r, disk) && c.kind == Remove
    ensures c.path !in Desired(r)
  {}

  lemma {:induction false} RemovalOrigin(plan: Plan, r: Rendering, w: World, probe: Probe, s: Step)
    requires InParts(plan, r, w, probe, s) && s.action.RemoveFile?
    ensures exists c :: c in plan.files && c.deferred && c.kind == Remove && c.path == s.action.path
  {
    SwitchPart(plan.switches);
    ProcessPart(r, plan.files, w, probe);
    RemovalPart(plan.files);
    RecordPart(plan.records);
  }

  lemma {:induction false} RemovalsArePlanned(r: Rendering, listing: seq<Path>, w: World, probe: Probe, c: FileChange)
    requires var plan := PlanFor(r, listing, w, probe); c in plan.files && c.deferred && c.kind == Remove
    ensures Step(PROCESSES, RemoveFile(c.path), false) in PlanFor(r, listing, w, probe).steps
  {
    var plan := PlanFor(r, listing, w, probe);
    RemovalPart(plan.files);
    PartsIn(r, listing, w, probe, Step(PROCESSES, RemoveFile(c.path), false));
  }

  lemma {:induction false} ArtifactHolds(r: Rendering, listing: seq<Path>, w: World, probe: Probe,
      declaration: Option<string>, luck: Luck, a: Artifact)
    requires WellFormed(r) && AllWent(w, PlanFor(r, listing, w, probe), declaration, luck) && a in r.artifacts
    ensures var after := Turn(w, PlanFor(r, listing, w, probe), declaration, luck).world;
            a.path in after.disk && after.disk[a.path] == a.content
  {
    var plan := PlanFor(r, listing, w, probe);
    assert a.path in Desired(r);
    RemovalsAreUndesired(r, listing, w, probe, a.path);
    assert Consistent(plan.files) by { FilesConsistent(r, listing, w.disk); }
    DiskAfter(w, plan, declaration, luck, a.path);
    OneChange(r, listing, w, probe, a);
  }

  lemma {:induction false} OneChange(r: Rendering, listing: seq<Path>, w: World, probe: Probe, a: Artifact)
    requires DistinctPaths(r.artifacts) && a in r.artifacts
    ensures Compare(a, w.disk) in PlanFor(r, listing, w, probe).files
    ensures forall c :: c in PlanFor(r, listing, w, probe).files && c.path == a.path ==> c == Compare(a, w.disk)
  {
    FilesConsistent(r, listing, w.disk);
    FileMembers(r, listing, w.disk);
  }

  lemma {:induction false} NothingToReclaim(r: Rendering, listing: seq<Path>, w: World, probe: Probe,
      declaration: Option<string>, luck: Luck, p: Path)
    requires WellFormed(r) && Lists(listing, w.disk) && AllWent(w, PlanFor(r, listing, w, probe), declaration, luck)
    ensures !ToReclaim(p, Turn(w, PlanFor(r, listing, w, probe), declaration, luck).world.disk, Desired(r))
  {
    var plan := PlanFor(r, listing, w, probe);
    var after := Turn(w, plan, declaration, luck).world;
    FilesConsistent(r, listing, w.disk);
    DiskAfter(w, plan, declaration, luck, p);
    if p !in Desired(r) { NotWritten(r, listing, w, probe, p); }
    if ToReclaim(p, w.disk, Desired(r)) { ReclaimIsPlanned(r, listing, w, probe, p); }
  }

  lemma {:induction false} NotWritten(r: Rendering, listing: seq<Path>, w: World, probe: Probe, p: Path)
    requires DistinctPaths(r.artifacts) && p !in Desired(r)
    ensures forall c :: c in PlanFor(r, listing, w, probe).files && c.path == p ==> !WasWritten(c)
  {
    FilesConsistent(r, listing, w.disk);
    forall c | c in PlanFor(r, listing, w, probe).files && c.path == p ensures !WasWritten(c) {
      assert FromPlan(c, r, w.disk);
      if Rendered(c, r, w.disk) { RenderedIsDesired(c, r, w.disk); }
    }
  }

  lemma {:induction false} ReclaimIsPlanned(r: Rendering, listing: seq<Path>, w: World, probe: Probe, p: Path)
    requires Lists(listing, w.disk) && ToReclaim(p, w.disk, Desired(r))
    ensures var plan := PlanFor(r, listing, w, probe);
            RemovalOf(p) in plan.files && (p.dir == UnitDir ==> Step(PROCESSES, RemoveFile(p), false) in plan.steps)
  {
    FileMembers(r, listing, w.disk);
    if p.dir == UnitDir { RemovalsArePlanned(r, listing, w, probe, RemovalOf(p)); }
  }

  lemma {:induction false} FilesSettled(r: Rendering, listing: seq<Path>, w: World, probe: Probe,
      declaration: Option<string>, luck: Luck, again: seq<Path>)
    requires WellFormed(r) && Lists(listing, w.disk) && AllWent(w, PlanFor(r, listing, w, probe), declaration, luck)
    ensures var after := Turn(w, PlanFor(r, listing, w, probe), declaration, luck).world;
            forall c :: c in Files(r, again, after.disk) ==>
              c.kind == Unchanged && c.hadBefore && exists a :: a in r.artifacts && a.path == c.path
  {
    var after := Turn(w, PlanFor(r, listing, w, probe), declaration, luck).world;
    FileMembers(r, again, after.disk);
    forall c | c in Files(r, again, after.disk)
      ensures c.kind == Unchanged && c.hadBefore && exists a :: a in r.artifacts && a.path == c.path
    {
      NothingToReclaim(r, listing, w, probe, declaration, luck, c.path);
      var a :| a in r.artifacts && c == Compare(a, after.disk);
      ArtifactHolds(r, listing, w, probe, declaration, luck, a);
    }
  }

  lemma {:induction false} ArtifactsListed(r: Rendering, again: seq<Path>, disk: map<Path, Content>, p: Path)
    requires HasArtifact(r, p)
    ensures exists c :: c in Files(r, again, disk) && c.path == p
  {
    FileMembers(r, again, disk);
    var a :| a in r.artifacts && a.path == p;
    assert Compare(a, disk) in Files(r, again, disk);
  }

  // ----- switches and records --------------------------------------------------------

  lemma {:induction false} SwitchMembers(wants: seq<Switch>, held: map<string, string>)
    ensures forall c :: c in SwitchChanges(wants, held) <==>
              c.switch_ in wants && c.switch_.key in held && c.changed == (held[c.switch_.key] != c.switch_.value)
  {
    if wants != [] {
      SwitchMembers(wants[1..], held);
      assert wants == [wants[0]] + wants[1..];
      var head := if wants[0].key in held then [SwitchChange(wants[0], held[wants[0].key] != wants[0].value)] else [];
      forall c ensures c in SwitchChanges(wants, held) <==>
        c.switch_ in wants && c.switch_.key in held && c.changed == (held[c.switch_.key] != c.switch_.value)
      {
        assert c in SwitchChanges(wants, held) <==> c in head || c in SwitchChanges(wants[1..], held);
      }
    }
  }

  lemma {:induction false} SwitchStepMembers(switches: seq<SwitchChange>)
    ensures forall s :: s in SwitchSteps(switches) <==>
              exists c :: c in switches && c.changed
                && s == Step(KERNEL, SetSwitch(c.switch_.key, c.switch_.value), false)
  {
    if switches != [] {
      SwitchStepMembers(switches[1..]);
      assert switches == [switches[0]] + switches[1..];
      var flip := Step(KERNEL, SetSwitch(switches[0].switch_.key, switches[0].switch_.value), false);
      var head := if switches[0].changed then [flip] else [];
      forall s ensures s in SwitchSteps(switches) <==>
        exists c :: c in switches && c.changed && s == Step(KERNEL, SetSwitch(c.switch_.key, c.switch_.value), false)
      {
        assert s in SwitchSteps(switches) <==> s in head || s in SwitchSteps(switches[1..]);
      }
    }
  }

  lemma {:induction false} SwitchOrigin(plan: Plan, r: Rendering, w: World, probe: Probe, s: Step)
    requires InParts(plan, r, w, probe, s) && s.action.SetSwitch?
    ensures s in SwitchSteps(plan.switches)
  {
    ProcessPart(r, plan.files, w, probe);
    RemovalPart(plan.files);
    RecordPart(plan.records);
  }

  lemma {:induction false} SwitchHolds(r: Rendering, listing: seq<Path>, w: World, probe: Probe, want: Switch)
    requires WellFormed(r) && want in r.switches
    ensures var after := RunAll(w, PlanFor(r, listing, w, probe).steps);
            want.key in after.switches ==> after.switches[want.key] == want.value
  {
    var plan := PlanFor(r, listing, w, probe);
    OneValue(r, listing, w, probe, want);
    if want.key in w.switches && w.switches[want.key] != want.value {
      SwitchIsSet(r, listing, w, probe, want);
      assert Sets(Step(KERNEL, SetSwitch(want.key, want.value), false), want.key);
    }
    RunAllSwitch(w, plan.steps, want.key, want.value);
  }

  lemma {:induction false} OneValue(r: Rendering, listing: seq<Path>, w: World, probe: Probe, want: Switch)
    requires WellFormed(r) && want in r.switches
    ensures forall s :: s in PlanFor(r, listing, w, probe).steps && Sets(s, want.key) ==> s.action.value == want.value
  {
    var plan := PlanFor(r, listing, w, probe);
    SwitchMembers(r.switches, w.switches);
    SwitchStepMembers(plan.switches);
    forall s | s in plan.steps && Sets(s, want.key) ensures s.action.value == want.value {
      PartsOf(r, listing, w, probe, s);
      SwitchOrigin(plan, r, w, probe, s);
      var c :| c in plan.switches && c.changed && s == Step(KERNEL, SetSwitch(c.switch_.key, c.switch_.value), false);
      assert c.switch_ == want;
    }
  }

  lemma {:induction false} SwitchIsSet(r: Rendering, listing: seq<Path>, w: World, probe: Probe, want: Switch)
    requires want in r.switches && want.key in w.switches && w.switches[want.key] != want.value
    ensures Step(KERNEL, SetSwitch(want.key, want.value), false) in PlanFor(r, listing, w, probe).steps
  {
    var plan := PlanFor(r, listing, w, probe);
    SwitchMembers(r.switches, w.switches);
    SwitchStepMembers(plan.switches);
    assert SwitchChange(want, true) in plan.switches;
    PartsIn(r, listing, w, probe, Step(KERNEL, SetSwitch(want.key, want.value), false));
  }

  lemma {:induction false} SwitchesSettled(r: Rendering, listing: seq<Path>, w: World, probe: Probe)
    requires WellFormed(r)
    ensures forall c :: c in SwitchChanges(r.switches, RunAll(w, PlanFor(r, listing, w, probe).steps).switches) ==>
        !c.changed
  {
    var after := RunAll(w, PlanFor(r, listing, w, probe).steps).switches;
    SwitchMembers(r.switches, after);
    forall c | c in SwitchChanges(r.switches, after) ensures !c.changed {
      SwitchHolds(r, listing, w, probe, c.switch_);
    }
  }

  lemma {:induction false} RecordMembers(records: seq<Record>, written: map<RecordId, Record>)
    ensures forall c :: c in RecordChanges(records, written) <==>
        c.record in records && c.write == MustWrite(c.record, written)
  {
    if records != [] {
      RecordMembers(records[1..], written);
      assert records == [records[0]] + records[1..];
    }
  }

  lemma {:induction false} RecordStepMembers(records: seq<RecordChange>)
    ensures forall s :: s in RecordSteps(records) <==>
              exists c :: c in records && c.write && s == Step(DNS, WriteRecord(c.record), false)
  {
    if records != [] {
      RecordStepMembers(records[1..]);
      assert records == [records[0]] + records[1..];
      var head := if records[0].write then [Step(DNS, WriteRecord(records[0].record), false)] else [];
      forall s ensures s in RecordSteps(records) <==>
        exists c :: c in records && c.write && s == Step(DNS, WriteRecord(c.record), false)
      {
        assert s in RecordSteps(records) <==> s in head || s in RecordSteps(records[1..]);
      }
    }
  }

  lemma {:induction false} RecordOrigin(plan: Plan, r: Rendering, w: World, probe: Probe, s: Step)
    requires InParts(plan, r, w, probe, s) && s.action.WriteRecord?
    ensures s in RecordSteps(plan.records)
  {
    SwitchPart(plan.switches);
    ProcessPart(r, plan.files, w, probe);
    RemovalPart(plan.files);
  }

  lemma {:induction false} RecordHolds(r: Rendering, listing: seq<Path>, w: World, probe: Probe, record: Record)
    requires WellFormed(r) && record in r.records
    ensures !MustWrite(record, RunAll(w, PlanFor(r, listing, w, probe).steps).written)
  {
    var plan := PlanFor(r, listing, w, probe);
    RecordMembers(r.records, w.written);
    RecordStepMembers(plan.records);
    forall s | s in plan.steps && Writes(s, record.id) ensures s.action.record == record {
      PartsOf(r, listing, w, probe, s);
      RecordOrigin(plan, r, w, probe, s);
      var c :| c in plan.records && c.write && s == Step(DNS, WriteRecord(c.record), false);
      assert c.record == record;
    }
    if MustWrite(record, w.written) {
      assert RecordChange(record, true) in plan.records;
      var s := Step(DNS, WriteRecord(record), false);
      PartsIn(r, listing, w, probe, s);
      assert Writes(s, record.id);
    }
    RunAllRecord(w, plan.steps, record);
  }

  lemma {:induction false} RecordsSettled(r: Rendering, listing: seq<Path>, w: World, probe: Probe)
    requires WellFormed(r)
    ensures RecordSteps(RecordChanges(r.records, RunAll(w, PlanFor(r, listing, w, probe).steps).written)) == []
  {
    var changes := RecordChanges(r.records, RunAll(w, PlanFor(r, listing, w, probe).steps).written);
    RecordMembers(r.records, RunAll(w, PlanFor(r, listing, w, probe).steps).written);
    forall c | c in changes ensures !c.write { RecordHolds(r, listing, w, probe, c.record); }
    RecordStepMembers(changes);
    assert forall s :: s !in RecordSteps(changes);
    assert RecordSteps(changes) != [] ==> RecordSteps(changes)[0] in RecordSteps(changes);
  }

  // ----- processes -------------------------------------------------------------------

  lemma {:induction false} ServiceStarts(s: Service)
    requires s.declared && s.active == Some(false)
    ensures exists t :: t in ServiceSteps(s) && Starts(t, s.unit)
  {
    var t := if Fresh(s) then ServiceCommand(["enable", "--now", s.unit]) else ServiceCommand(["start", s.unit]);
    assert t in ServiceSteps(s) && Starts(t, s.unit);
  }

  lemma {:induction false} ServiceStops(s: Service, t: Step, unit: string)
    requires t in ServiceSteps(s) && Stops(t, unit)
    ensures !s.declared && s.unit == unit
  {
    assert t.action.command.args[2] == unit;
  }

  lemma {:induction false} SessionMembers(names: seq<string>, r: Rendering, files: seq<FileChange>, w: World,
      probe: Probe, t: Step)
    ensures t in SessionSteps(names, r, files, w, probe) <==>
              exists n :: n in names && t in ServiceSteps(SessionService(n, r, files, w, probe))
  {
    if names != [] {
      SessionMembers(names[1..], r, files, w, probe, t);
      assert names == [names[0]] + names[1..];
    }
  }

  lemma {:induction false} PppoeUnitsDiffer(a: string, b: string)
    ensures PppoeUnit(a) == PppoeUnit(b) ==> a == b
    ensures PppoeUnit(a) != DNSMASQ_UNIT
  {
    var head, tail := "regied-pppoe@", ".service";
    assert PppoeUnit(a)[|head|..|PppoeUnit(a)| - |tail|] == a;
    assert PppoeUnit(b)[|head|..|PppoeUnit(b)| - |tail|] == b;
    assert PppoeUnit(a)[7] == 'p' && DNSMASQ_UNIT[7] == 'd';
  }

  lemma {:induction false} SessionsAreNamed(r: Rendering, files: seq<FileChange>)
    ensures forall n :: n in r.sessions ==> n in SessionNames(r, files)
  {
    var all := r.sessions + NamesIn(files, PeersDir) + NamesIn(files, CredentialsDir);
    SortKeeps(all, TextLe);
    CompactKeeps(Sort(all, TextLe));
  }

  lemma {:induction false} StopOrigin(plan: Plan, r: Rendering, w: World, probe: Probe, t: Step, unit: string)
    requires InParts(plan, r, w, probe, t) && Stops(t, unit)
    ensures t in ProcessSteps(r, plan.files, w, probe)
  {
    SwitchPart(plan.switches);
    RemovalPart(plan.files);
    RecordPart(plan.records);
  }

  /** What the declaration asks for is not stopped. */
  lemma {:induction false} SessionNotStopped(r: Rendering, listing: seq<Path>, w: World, probe: Probe, n: string)
    requires n in r.sessions
    ensures forall t :: t in PlanFor(r, listing, w, probe).steps ==> !Stops(t, PppoeUnit(n))
  {
    var plan := PlanFor(r, listing, w, probe);
    forall t | t in plan.steps ensures !Stops(t, PppoeUnit(n)) {
      PartsOf(r, listing, w, probe, t);
      if Reloading(t) {
      } else if Stops(t, PppoeUnit(n)) {
        StopOrigin(plan, r, w, probe, t, PppoeUnit(n));
        NoSessionStop(r, plan.files, w, probe, t, n);
      }
    }
  }

  lemma {:induction false} NoSessionStop(r: Rendering, files: seq<FileChange>, w: World, probe: Probe, t: Step,
      n: string)
    requires t in ProcessSteps(r, files, w, probe) && n in r.sessions
    ensures !Stops(t, PppoeUnit(n))
  {
    PppoeUnitsDiffer(n, n);
    if Stops(t, PppoeUnit(n)) {
      SessionMembers(SessionNames(r, files), r, files, w, probe, t);
      if t in SessionSteps(SessionNames(r, files), r, files, w, probe) {
        var m :| m in SessionNames(r, files) && t in ServiceSteps(SessionService(m, r, files, w, probe));
        PppoeUnitsDiffer(m, n);
        ServiceStops(SessionService(m, r, files, w, probe), t, PppoeUnit(n));
      } else {
        ServiceStops(DnsmasqService(r, files, w, probe), t, PppoeUnit(n));
      }
    }
  }

  lemma {:induction false} DnsmasqNotStopped(r: Rendering, listing: seq<Path>, w: World, probe: Probe)
    requires r.dnsmasq
    ensures forall t :: t in PlanFor(r, listing, w, probe).steps ==> !Stops(t, DNSMASQ_UNIT)
  {
    var plan := PlanFor(r, listing, w, probe);
    forall t | t in plan.steps ensures !Stops(t, DNSMASQ_UNIT) {
      PartsOf(r, listing, w, probe, t);
      if Reloading(t) {
      } else if Stops(t, DNSMASQ_UNIT) {
        StopOrigin(plan, r, w, probe, t, DNSMASQ_UNIT);
        NoDnsmasqStop(r, plan.files, w, probe, t);
      }
    }
  }

  lemma {:induction false} NoDnsmasqStop(r: Rendering, files: seq<FileChange>, w: World, probe: Probe, t: Step)
    requires t in ProcessSteps(r, files, w, probe) && r.dnsmasq
    ensures !Stops(t, DNSMASQ_UNIT)
  {
    if Stops(t, DNSMASQ_UNIT) {
      SessionMembers(SessionNames(r, files), r, files, w, probe, t);
      if t in SessionSteps(SessionNames(r, files), r, files, w, probe) {
        var m :| m in SessionNames(r, files) && t in ServiceSteps(SessionService(m, r, files, w, probe));
        PppoeUnitsDiffer(m, m);
        ServiceStops(SessionService(m, r, files, w, probe), t, DNSMASQ_UNIT);
      } else {
        ServiceStops(DnsmasqService(r, files, w, probe), t, DNSMASQ_UNIT);
      }
    }
  }

  /** Every unit the declaration asks for, and whose state can be asked, is up after the steps. */
  lemma {:induction false} SessionUp(r: Rendering, listing: seq<Path>, w: World, probe: Probe, n: string)
    requires n in r.sessions && PppoeUnit(n) in probe.units
    ensures PppoeUnit(n) in RunAll(w, PlanFor(r, listing, w, probe).steps).active
  {
    var plan := PlanFor(r, listing, w, probe);
    SessionNotStopped(r, listing, w, probe, n);
    if PppoeUnit(n) !in w.active {
      var s := SessionService(n, r, plan.files, w, probe);
      ServiceStarts(s);
      var t :| t in ServiceSteps(s) && Starts(t, s.unit);
      SessionsAreNamed(r, plan.files);
      SessionMembers(SessionNames(r, plan.files), r, plan.files, w, probe, t);
      PartsIn(r, listing, w, probe, t);
    }
    RunAllUnit(w, plan.steps, PppoeUnit(n));
  }

  lemma {:induction false} DnsmasqUp(r: Rendering, listing: seq<Path>, w: World, probe: Probe)
    requires r.dnsmasq && DNSMASQ_UNIT in probe.units
    ensures DNSMASQ_UNIT in RunAll(w, PlanFor(r, listing, w, probe).steps).active
  {
    var plan := PlanFor(r, listing, w, probe);
    DnsmasqNotStopped(r, listing, w, probe);
    if DNSMASQ_UNIT !in w.active {
      var s := DnsmasqService(r, plan.files, w, probe);
      ServiceStarts(s);
      var t :| t in ServiceSteps(s) && Starts(t, s.unit);
      PartsIn(r, listing, w, probe, t);
    }
    RunAllUnit(w, plan.steps, DNSMASQ_UNIT);
  }

  lemma {:induction false} ChangeForIs(files: seq<FileChange>, p: Path)
    ensures var c := ChangeFor(files, p);
            (c in files && c.path == p) || c == FileChange(p, Unchanged, NO_CONTENT, false, false)
    ensures (exists c :: c in files && c.path == p) ==> ChangeFor(files, p) in files
  {
    if files != [] {
      ChangeForIs(files[1..], p);
      assert files == [files[0]] + files[1..];
    }
  }

  /** Files that are all as they should be, as the next plan finds them. */
  ghost predicate AllSettled(files: seq<FileChange>) {
    forall c :: c in files ==> c.kind == Unchanged && c.hadBefore
  }

  lemma {:induction false} QuietSession(n: string, r: Rendering, files: seq<FileChange>, w: World, probe: Probe)
    requires AllSettled(files)
    requires n in r.sessions ==> exists c :: c in files && c.path == Path(PeersDir, n + CONF)
    requires n in r.sessions && PppoeUnit(n) in probe.units ==> PppoeUnit(n) in w.active
    ensures ServiceSteps(SessionService(n, r, files, w, probe)) == []
  {
    ChangeForIs(files, Path(UnitDir, PPPOE_TEMPLATE));
    ChangeForIs(files, Path(PeersDir, n + CONF));
    ChangeForIs(files, Path(CredentialsDir, n + CONF));
    var s := SessionService(n, r, files, w, probe);
    assert s.inputs[0] in s.inputs;
  }

  lemma {:induction false} QuietDnsmasq(r: Rendering, files: seq<FileChange>, w: World, probe: Probe)
    requires AllSettled(files)
    requires r.dnsmasq ==> exists c :: c in files && c.path == Path(DnsmasqDir, "dnsmasq.conf")
    requires r.dnsmasq && DNSMASQ_UNIT in probe.units ==> DNSMASQ_UNIT in w.active
    ensures ServiceSteps(DnsmasqService(r, files, w, probe)) == []
  {
    ChangeForIs(files, Path(UnitDir, DNSMASQ_UNIT));
    ChangeForIs(files, Path(DnsmasqDir, "dnsmasq.conf"));
    var s := DnsmasqService(r, files, w, probe);
    assert s.inputs[0] in s.inputs;
  }

  lemma {:induction false} SessionsSettled(r: Rendering, listing: seq<Path>, w: World, probe: Probe,
      files: seq<FileChange>, after: World, names: seq<string>)
    requires WellFormed(r) && AllSettled(files)
    requires forall p :: HasArtifact(r, p) ==> exists c :: c in files && c.path == p
    requires after.active == RunAll(w, PlanFor(r, listing, w, probe).steps).active
    ensures SessionSteps(names, r, files, after, probe) == []
  {
    if names != [] {
      var n := names[0];
      if n in r.sessions {
        assert HasArtifact(r, Path(PeersDir, n + CONF));
        if PppoeUnit(n) in probe.units { SessionUp(r, listing, w, probe, n); }
      }
      QuietSession(n, r, files, after, probe);
      SessionsSettled(r, listing, w, probe, files, after, names[1..]);
    }
  }

  lemma {:induction false} DnsmasqSettled(r: Rendering, listing: seq<Path>, w: World, probe: Probe,
      files: seq<FileChange>, after: World)
    requires WellFormed(r) && AllSettled(files)
    requires forall p :: HasArtifact(r, p) ==> exists c :: c in files && c.path == p
    requires after.active == RunAll(w, PlanFor(r, listing, w, probe).steps).active
    ensures ServiceSteps(DnsmasqService(r, files, after, probe)) == []
  {
    if r.dnsmasq && DNSMASQ_UNIT in probe.units { DnsmasqUp(r, listing, w, probe); }
    QuietDnsmasq(r, files, after, probe);
  }

  lemma {:induction false} ProcessesSettled(r: Rendering, listing: seq<Path>, w: World, probe: Probe,
      files: seq<FileChange>, after: World)
    requires WellFormed(r) && AllSettled(files)
    requires forall p :: HasArtifact(r, p) ==> exists c :: c in files && c.path == p
    requires after.active == RunAll(w, PlanFor(r, listing, w, probe).steps).active
    ensures ProcessSteps(r, files, after, probe) == []
  {
    SessionsSettled(r, listing, w, probe, files, after, SessionNames(r, files));
    DnsmasqSettled(r, listing, w, probe, files, after);
  }
}
