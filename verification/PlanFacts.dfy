/** What is true of every plan: its phases are in order, every file change is followed by the
    reload of its reader, and no unit goes before everything that stops it has been asked. */
module PlanFacts {
  import opened Orders
  import opened Host
  import opened Planning
  import opened OwingFacts

  // ----- each part of the steps ------------------------------------------------------

  ghost predicate AllIn(steps: seq<Step>, phase: int) {
    forall s :: s in steps ==> s.phase == phase
  }

  /** No step here takes a unit away, and none is the reload that follows one. */
  ghost predicate Plain(steps: seq<Step>) {
    forall s :: s in steps ==> !s.action.RemoveFile? && KeyOf(s) != OwedKey(LATE_RELOAD)
  }

  lemma {:induction false} SwitchPart(switches: seq<SwitchChange>)
    ensures AllIn(SwitchSteps(switches), KERNEL) && Plain(SwitchSteps(switches)) && Marked(SwitchSteps(switches))
    ensures forall s :: s in SwitchSteps(switches) ==> s.action.SetSwitch?
  {
    if switches != [] { SwitchPart(switches[1..]); }
  }

  lemma {:induction false} TriggerPart(linkFiles: seq<UdevLink>, files: seq<FileChange>, links: set<string>)
    ensures AllIn(TriggerSteps(linkFiles, files, links), NETWORKD)
    ensures Plain(TriggerSteps(linkFiles, files, links)) && Marked(TriggerSteps(linkFiles, files, links))
    ensures forall s :: s in TriggerSteps(linkFiles, files, links) ==>
              exists i :: 0 <= i < |linkFiles| && s == Step(NETWORKD, Run(UdevTrigger(linkFiles[i].ifname)), true)
  {
    if linkFiles != [] {
      TriggerPart(linkFiles[1..], files, links);
      forall s | s in TriggerSteps(linkFiles, files, links)
        ensures exists i :: 0 <= i < |linkFiles| && s == Step(NETWORKD, Run(UdevTrigger(linkFiles[i].ifname)), true)
      {
        if s in TriggerSteps(linkFiles[1..], files, links) {
          var i :| 0 <= i < |linkFiles[1..]| && s == Step(NETWORKD, Run(UdevTrigger(linkFiles[1..][i].ifname)), true);
          assert linkFiles[i + 1] == linkFiles[1..][i];
        }
      }
    }
  }

  lemma {:induction false} TriggerNames(a: string, b: string)
    requires UdevTrigger(a).args == UdevTrigger(b).args
    ensures a == b
  {
    var head := SYS_CLASS_NET;
    assert UdevTrigger(a).args[3] == UdevTrigger(b).args[3];
    assert (head + a)[|head|..] == a && (head + b)[|head|..] == b;
  }

  /** A step for a process: it starts, restarts, enables or stops one unit. */
  ghost predicate IsService(s: Step) {
    && s.phase == PROCESSES && !s.owed && s.action.Run? && s.action.command.name == "systemctl"
    && |s.action.command.args| >= 2
  }

  lemma {:induction false} SessionPart(names: seq<string>, r: Rendering, files: seq<FileChange>, w: World, probe: Probe)
    ensures forall t :: t in SessionSteps(names, r, files, w, probe) ==> IsService(t)
  {
    if names != [] {
      SessionPart(names[1..], r, files, w, probe);
    }
  }

  lemma {:induction false} ProcessPart(r: Rendering, files: seq<FileChange>, w: World, probe: Probe)
    ensures forall t :: t in ProcessSteps(r, files, w, probe) ==> IsService(t)
    ensures AllIn(ProcessSteps(r, files, w, probe), PROCESSES)
    ensures Plain(ProcessSteps(r, files, w, probe)) && Marked(ProcessSteps(r, files, w, probe))
  {
    SessionPart(SessionNames(r, files), r, files, w, probe);
  }

  lemma {:induction false} RemovalPart(files: seq<FileChange>)
    ensures AllIn(RemovalSteps(files), PROCESSES)
    ensures forall s :: s in RemovalSteps(files) <==>
              exists c :: c in files && c.deferred && c.kind == Remove
                && s == Step(PROCESSES, RemoveFile(c.path), false)
  {
    if files != [] {
      RemovalPart(files[1..]);
      assert files == [files[0]] + files[1..];
      forall s ensures s in RemovalSteps(files) <==>
        exists c :: c in files && c.deferred && c.kind == Remove && s == Step(PROCESSES, RemoveFile(c.path), false)
      {
        var removal := Step(PROCESSES, RemoveFile(files[0].path), false);
        var head := if files[0].deferred && files[0].kind == Remove then [removal] else [];
        assert s in RemovalSteps(files) <==> s in head || s in RemovalSteps(files[1..]);
      }
    }
  }

  lemma {:induction false} RecordPart(records: seq<RecordChange>)
    ensures AllIn(RecordSteps(records), DNS) && Plain(RecordSteps(records)) && Marked(RecordSteps(records))
    ensures forall s :: s in RecordSteps(records) ==> s.action.WriteRecord?
  {
    if records != [] { RecordPart(records[1..]); }
  }

  // ----- phases ----------------------------------------------------------------------

  lemma {:induction false} SortedJoin(a: seq<Step>, b: seq<Step>, p: int)
    requires PhaseSorted(a) && PhaseSorted(b)
    requires forall s :: s in a ==> s.phase <= p
    requires forall s :: s in b ==> p <= s.phase
    ensures PhaseSorted(a + b)
  {
    forall i, j | 0 <= i < j < |a + b| ensures (a + b)[i].phase <= (a + b)[j].phase {
      if i < |a| { assert a[i] in a; }
      if j >= |a| { assert b[j - |a|] in b; }
    }
  }

  lemma {:induction false} SortedSingle(a: seq<Step>, p: int)
    requires AllIn(a, p)
    ensures PhaseSorted(a)
  {
    forall i, j | 0 <= i < j < |a| ensures a[i].phase <= a[j].phase { assert a[i] in a && a[j] in a; }
  }

  /** A stretch of ordinary steps, in order, between two phases. */
  ghost predicate Part(steps: seq<Step>, lo: int, hi: int) {
    && PhaseSorted(steps) && Plain(steps) && Marked(steps)
    && forall s :: s in steps ==> lo <= s.phase <= hi
  }

  lemma {:induction false} NetworkdPart(r: Rendering, files: seq<FileChange>, links: set<string>)
    ensures Part(NetworkdSteps(r, files, links), NETWORKD, NETWORKD)
  {
    TriggerPart(r.linkFiles, files, links);
    SortedSingle(NetworkdSteps(r, files, links), NETWORKD);
  }

  lemma {:induction false} FirewallPart(f: FirewallChange)
    ensures Part(FirewallSteps(f), FIREWALL, FIREWALL)
  {
    SortedSingle(FirewallSteps(f), FIREWALL);
  }

  lemma {:induction false} FiveParts(a: seq<Step>, b: seq<Step>, c: seq<Step>, d: seq<Step>, e: seq<Step>)
    requires Part(a, FIREWALL, FIREWALL) && Part(b, KERNEL, KERNEL) && Part(c, NETWORKD, NETWORKD)
    requires Part(d, PROCESS_CONFIG, PROCESS_CONFIG) && Part(e, PROCESSES, PROCESSES)
    ensures Part(a + b + c + d + e, FIREWALL, PROCESSES)
  {}

  lemma {:induction false} EarlyPart(r: Rendering, files: seq<FileChange>, switches: seq<SwitchChange>,
      f: FirewallChange, w: World, probe: Probe)
    ensures Part(EarlySteps(r, files, switches, f, w, probe), FIREWALL, PROCESSES)
  {
    FirewallPart(f);
    SwitchPart(switches);
    SortedSingle(SwitchSteps(switches), KERNEL);
    NetworkdPart(r, files, w.links);
    ProcessPart(r, files, w, probe);
    SortedSingle(ProcessSteps(r, files, w, probe), PROCESSES);
    FiveParts(FirewallSteps(f), SwitchSteps(switches), NetworkdSteps(r, files, w.links), UnitReload(files),
        ProcessSteps(r, files, w, probe));
  }

  lemma {:induction false} StepsSorted(r: Rendering, files: seq<FileChange>, switches: seq<SwitchChange>,
      f: FirewallChange, records: seq<RecordChange>, w: World, probe: Probe)
    ensures PhaseSorted(StepsOf(r, files, switches, f, records, w, probe))
  {
    var early, late, dns := EarlySteps(r, files, switches, f, w, probe), DeferredReclaim(files), RecordSteps(records);
    EarlyPart(r, files, switches, f, w, probe);
    RemovalPart(files);
    RecordPart(records);
    SortedSingle(late, PROCESSES);
    SortedSingle(dns, DNS);
    SortedJoin(early, late, PROCESSES);
    SortedJoin(early + late, dns, DNS);
  }

  // ----- what is noted as owed -------------------------------------------------------

  lemma {:induction false} OwedOfFacts(steps: seq<Step>)
    ensures Noted(steps, OwedOf(steps))
    ensures Backed(OwedOf(steps), steps)
    ensures forall s :: s in steps && s.owed && s.action.Run? ==>
              OwedStep(s.phase, s.action.command.name, s.action.command.args) in OwedOf(steps)
  {
    if steps != [] {
      OwedOfFacts(steps[1..]);
      assert steps == [steps[0]] + steps[1..];
      forall s | s in steps && s.owed && s.action.Run?
        ensures OwedStep(s.phase, s.action.command.name, s.action.command.args) in OwedOf(steps)
      {
        if s != steps[0] { assert s in steps[1..]; }
      }
      forall s | s in steps && s.owed && s.action.Run? ensures Holds(OwedOf(steps), KeyOf(s)) {
        var o := OwedStep(s.phase, s.action.command.name, s.action.command.args);
        assert o in OwedOf(steps) && OwedKey(o) == KeyOf(s);
      }
      forall o | o in OwedOf(steps) ensures OwedKey(o) in KeysOf(steps) {
        if o in OwedOf(steps[1..]) {
          assert OwedKey(o) in KeysOf(steps[1..]);
          var s :| s in steps[1..] && KeyOf(s) == OwedKey(o);
          assert s in steps;
        } else {
          assert KeyOf(steps[0]) == OwedKey(o);
        }
      }
    }
  }

  lemma {:induction false} PlainRemovals(a: seq<Step>, removals: seq<Step>, z: seq<Step>, owed: seq<OwedStep>)
    requires Plain(a)
    requires forall s :: s in removals ==> s.action.RemoveFile? && ReaderOf(s.action.path) == Some(Systemd)
    requires forall s :: s in z ==> !s.action.RemoveFile?
    requires removals != [] ==> LATE_RELOAD in owed
    ensures RemovalsFirst(a + removals + z, owed)
  {
    var steps := a + removals + z;
    assert forall j :: 0 <= j < |a| ==> !a[j].action.RemoveFile? && KeyOf(a[j]) != OwedKey(LATE_RELOAD);
    assert forall j :: 0 <= j < |z| ==> !z[j].action.RemoveFile?;
    forall i | 0 <= i < |steps| && steps[i].action.RemoveFile? ensures RemovalAt(steps, owed, i) {
      assert |a| <= i < |a| + |removals|;
      assert removals[i - |a|] in removals;
      forall k | 0 <= k <= i ensures KeyOf(steps[k]) != OwedKey(LATE_RELOAD) {
        if k >= |a| { assert removals[k - |a|] in removals; }
      }
    }
  }

  /** Deferred changes are units, and a unit's removal is deferred. */
  ghost predicate UnitsDeferred(files: seq<FileChange>) {
    forall c :: c in files ==> (c.deferred <==> c.path.dir == UnitDir)
  }

  lemma {:induction false} RemovalsLayout(early: seq<Step>, files: seq<FileChange>, dns: seq<Step>, steps: seq<Step>)
    requires UnitsDeferred(files) && Plain(early) && Plain(dns)
    requires steps == early + DeferredReclaim(files) + dns
    ensures RemovalsFirst(steps, OwedOf(steps))
  {
    var removals, late := RemovalSteps(files), ReloadStep(PROCESSES, Systemd);
    RemovalPart(files);
    if removals == [] {
      assert early + removals + dns == steps;
      PlainRemovals(early, removals, dns, OwedOf(steps));
    } else {
      assert early + removals + ([late] + dns) == steps;
      assert steps[|early| + |removals|] == late;
      LateIsOwed(steps);
      PlainRemovals(early, removals, [late] + dns, OwedOf(steps));
    }
  }

  lemma {:induction false} LateIsOwed(steps: seq<Step>)
    requires ReloadStep(PROCESSES, Systemd) in steps
    ensures LATE_RELOAD in OwedOf(steps)
  {
    OwedOfFacts(steps);
  }

  lemma {:induction false} LayoutSound(early: seq<Step>, files: seq<FileChange>, dns: seq<Step>, steps: seq<Step>)
    requires UnitsDeferred(files) && Plain(early) && Plain(dns) && Marked(early) && Marked(dns)
    requires steps == early + DeferredReclaim(files) + dns
    ensures Sound(Owing(steps, OwedOf(steps)))
  {
    LatePart(files);
    OwedOfFacts(steps);
    RemovalsLayout(early, files, dns, steps);
  }

  lemma {:induction false} StepsSound(r: Rendering, files: seq<FileChange>, switches: seq<SwitchChange>,
      f: FirewallChange, records: seq<RecordChange>, w: World, probe: Probe)
    requires UnitsDeferred(files)
    ensures var steps := StepsOf(r, files, switches, f, records, w, probe);
            Sound(Owing(steps, OwedOf(steps)))
  {
    EarlyPart(r, files, switches, f, w, probe);
    RecordPart(records);
    LayoutSound(EarlySteps(r, files, switches, f, w, probe), files, RecordSteps(records),
        StepsOf(r, files, switches, f, records, w, probe));
  }

  lemma {:induction false} LatePart(files: seq<FileChange>)
    ensures Marked(DeferredReclaim(files)) && AllIn(DeferredReclaim(files), PROCESSES)
  {
    RemovalPart(files);
  }

  // ----- files -----------------------------------------------------------------------

  lemma {:induction false} ComparedMembers(artifacts: seq<Artifact>, disk: map<Path, Content>)
    ensures forall c :: c in Compared(artifacts, disk) <==> exists a :: a in artifacts && c == Compare(a, disk)
  {
    if artifacts != [] {
      ComparedMembers(artifacts[1..], disk);
      assert artifacts == [artifacts[0]] + artifacts[1..];
      forall c ensures c in Compared(artifacts, disk) <==> exists a :: a in artifacts && c == Compare(a, disk) {
        assert c in Compared(artifacts, disk) <==>
            c == Compare(artifacts[0], disk) || c in Compared(artifacts[1..], disk);
      }
    }
  }

  lemma {:induction false} ReclaimedMembers(listing: seq<Path>, disk: map<Path, Content>, desired: set<Path>)
    ensures forall c :: c in Reclaimed(listing, disk, desired) <==>
              c.path in listing && ToReclaim(c.path, disk, desired) && c == RemovalOf(c.path)
  {
    if listing != [] {
      ReclaimedMembers(listing[1..], disk, desired);
      assert listing == [listing[0]] + listing[1..];
      var head := if ToReclaim(listing[0], disk, desired) then [RemovalOf(listing[0])] else [];
      forall c ensures c in Reclaimed(listing, disk, desired) <==>
        c.path in listing && ToReclaim(c.path, disk, desired) && c == RemovalOf(c.path)
      {
        assert c in Reclaimed(listing, disk, desired) <==> c in head || c in Reclaimed(listing[1..], disk, desired);
      }
    }
  }

  /** Every file of the plan is a comparison with one artifact or the reclaiming of a file. */
  lemma {:induction false} FileMembers(r: Rendering, listing: seq<Path>, disk: map<Path, Content>)
    ensures forall c :: c in Files(r, listing, disk) <==>
              || (exists a :: a in r.artifacts && c == Compare(a, disk))
              || (c.path in listing && ToReclaim(c.path, disk, Desired(r)) && c == RemovalOf(c.path))
    ensures UnitsDeferred(Files(r, listing, disk))
  {
    var all := Compared(r.artifacts, disk) + Reclaimed(listing, disk, Desired(r));
    ComparedMembers(r.artifacts, disk);
    ReclaimedMembers(listing, disk, Desired(r));
    SortKeeps(all, PathOrder);
    forall c
      ensures c in Files(r, listing, disk) <==>
          c in Compared(r.artifacts, disk) || c in Reclaimed(listing, disk, Desired(r))
    {
      assert c in Files(r, listing, disk) <==> c in all;
    }
  }

  // ----- the plan --------------------------------------------------------------------

  ghost predicate DistinctPaths(artifacts: seq<Artifact>) {
    forall i, j :: 0 <= i < j < |artifacts| ==> artifacts[i].path != artifacts[j].path
  }

  ghost predicate DistinctListing(listing: seq<Path>) {
    forall i, j :: 0 <= i < j < |listing| ==> listing[i] != listing[j]
  }

  ghost predicate OnePath(files: seq<FileChange>) {
    forall i, j :: 0 <= i < j < |files| ==> files[i].path != files[j].path
  }

  lemma {:induction false} ComparedOnePath(artifacts: seq<Artifact>, disk: map<Path, Content>)
    requires DistinctPaths(artifacts)
    ensures OnePath(Compared(artifacts, disk)) && |Compared(artifacts, disk)| == |artifacts|
    ensures forall i :: 0 <= i < |artifacts| ==> Compared(artifacts, disk)[i].path == artifacts[i].path
  {
    if artifacts != [] { ComparedOnePath(artifacts[1..], disk); }
  }

  lemma {:induction false} ReclaimedOnePath(listing: seq<Path>, disk: map<Path, Content>, desired: set<Path>)
    requires DistinctListing(listing)
    ensures OnePath(Reclaimed(listing, disk, desired))
  {
    if listing != [] {
      var rest := Reclaimed(listing[1..], disk, desired);
      ReclaimedOnePath(listing[1..], disk, desired);
      ReclaimedMembers(listing[1..], disk, desired);
      forall j | 0 <= j < |rest| ensures rest[j].path != listing[0] {
        assert rest[j] in rest;
        var k :| 0 <= k < |listing[1..]| && listing[1..][k] == rest[j].path;
        assert listing[k + 1] == rest[j].path;
      }
    }
  }

  lemma {:induction false} PathsApart(files: seq<FileChange>, sorted: seq<FileChange>)
    requires OnePath(files) && multiset(files) == multiset(sorted)
    ensures OnePath(sorted)
  {
    DistinctCounts(files);
    forall x ensures Once(sorted, x) { assert Once(files, x); }
    CountsDistinct(sorted);
    forall i, j | 0 <= i < j < |sorted| ensures sorted[i].path != sorted[j].path {
      assert sorted[i] in multiset(sorted) && sorted[j] in multiset(sorted);
      ChangesApart(files, sorted[i], sorted[j]);
    }
  }

  lemma {:induction false} ChangesApart(files: seq<FileChange>, c: FileChange, d: FileChange)
    requires OnePath(files) && c in files && d in files && c != d
    ensures c.path != d.path
  {
    var i :| 0 <= i < |files| && files[i] == c;
    var j :| 0 <= j < |files| && files[j] == d;
    assert i < j || j < i;
  }

  /** Of one path a plan holds one change: one for each artifact, one for each file to reclaim. */
  lemma {:induction false} FilesOnceEach(r: Rendering, listing: seq<Path>, disk: map<Path, Content>)
    requires DistinctPaths(r.artifacts) && DistinctListing(listing)
    ensures OnePath(Files(r, listing, disk))
    ensures |Files(r, listing, disk)| == |r.artifacts| + |Reclaimed(listing, disk, Desired(r))|
  {
    var compared, reclaimed := Compared(r.artifacts, disk), Reclaimed(listing, disk, Desired(r));
    ComparedOnePath(r.artifacts, disk);
    ReclaimedOnePath(listing, disk, Desired(r));
    ReclaimedMembers(listing, disk, Desired(r));
    forall i, j | 0 <= i < |compared| && 0 <= j < |reclaimed| ensures compared[i].path != reclaimed[j].path {
      assert reclaimed[j] in reclaimed && r.artifacts[i] in r.artifacts;
    }
    SortKeeps(compared + reclaimed, PathOrder);
    PathsApart(compared + reclaimed, Files(r, listing, disk));
  }

  ghost predicate ReadersTold(files: seq<FileChange>, owed: seq<OwedStep>) {
    forall c :: c in files && c.kind != Unchanged && ReaderOf(c.path).Some? ==> AsksFor(owed, ReaderOf(c.path).value)
  }

  lemma {:induction false} AskedBy(steps: seq<Step>, phase: int, d: Daemon)
    requires ReloadStep(phase, d) in steps
    ensures AsksFor(OwedOf(steps), d)
  {
    OwedOfFacts(steps);
    var o := OwedStep(phase, ReloadOf(d).name, ReloadOf(d).args);
    assert o in OwedOf(steps) && Reloads(o, d);
  }

  /** The plan holds a reload of a changed file's reader. */
  lemma {:induction false} ReloadIsAsked(c: FileChange, r: Rendering, files: seq<FileChange>,
      switches: seq<SwitchChange>, f: FirewallChange, w: World, probe: Probe)
    returns (phase: int)
    requires UnitsDeferred(files) && c in files && c.kind != Unchanged && ReaderOf(c.path).Some?
    ensures ReloadStep(phase, ReaderOf(c.path).value) in
        EarlySteps(r, files, switches, f, w, probe) + DeferredReclaim(files)
  {
    match ReaderOf(c.path).value
    case Networkd =>
      phase := NETWORKD;
      assert ReloadStep(NETWORKD, Networkd) in NetworkdSteps(r, files, w.links);
    case Udev =>
      phase := NETWORKD;
      assert ReloadStep(NETWORKD, Udev) in NetworkdSteps(r, files, w.links);
    case Systemd =>
      if WasWritten(c) {
        phase := PROCESS_CONFIG;
        assert ReloadStep(PROCESS_CONFIG, Systemd) in UnitReload(files);
      } else {
        phase := PROCESSES;
        RemovalPart(files);
        assert Step(PROCESSES, RemoveFile(c.path), false) in RemovalSteps(files);
        assert ReloadStep(PROCESSES, Systemd) in DeferredReclaim(files);
      }
  }

  lemma {:induction false} ChangesAreTold(r: Rendering, files: seq<FileChange>, switches: seq<SwitchChange>,
      f: FirewallChange, records: seq<RecordChange>, w: World, probe: Probe)
    requires UnitsDeferred(files)
    ensures ReadersTold(files, OwedOf(StepsOf(r, files, switches, f, records, w, probe)))
  {
    var steps := StepsOf(r, files, switches, f, records, w, probe);
    forall c | c in files && c.kind != Unchanged && ReaderOf(c.path).Some?
      ensures AsksFor(OwedOf(steps), ReaderOf(c.path).value)
    {
      var phase := ReloadIsAsked(c, r, files, switches, f, w, probe);
      AskedBy(steps, phase, ReaderOf(c.path).value);
    }
  }

  /** Every plan is in phase order, tells the reader of every file it changes, asks again
      for everything that is owed, and takes units away last. */
  lemma {:induction false} PlanIsSound(r: Rendering, listing: seq<Path>, w: World, probe: Probe)
    ensures var plan := PlanFor(r, listing, w, probe);
            && PhaseSorted(plan.steps)
            && Sound(Owing(plan.steps, plan.owed))
            && ReadersTold(plan.files, plan.owed)
            && UnitsDeferred(plan.files)
            && forall o, d :: o in w.owed && Reloads(o, d) ==> AsksFor(plan.owed, d)
  {
    var plan := PlanFor(r, listing, w, probe);
    var files, switches, f, records := plan.files, plan.switches, plan.firewall, plan.records;
    var steps := StepsOf(r, files, switches, f, records, w, probe);
    FileMembers(r, listing, w.disk);
    StepsSorted(r, files, switches, f, records, w, probe);
    StepsSound(r, files, switches, f, records, w, probe);
    ChangesAreTold(r, files, switches, f, records, w, probe);
    var at := Owing(steps, OwedOf(steps));
    AddOwedSorted(at, w.owed, w.links);
    AddOwedSound(at, w.owed, w.links);
    AddOwedGrows(at, w.owed, w.links);
    forall c | c in files && c.kind != Unchanged && ReaderOf(c.path).Some?
      ensures AsksFor(plan.owed, ReaderOf(c.path).value)
    {
      assert AsksFor(OwedOf(steps), ReaderOf(c.path).value);
      var e :| e in OwedOf(steps) && Reloads(e, ReaderOf(c.path).value);
      assert e in plan.owed;
    }
    forall o, d | o in w.owed && Reloads(o, d) ensures AsksFor(plan.owed, d) {
      ReloadsAreOwable(o, d, w.links);
      AddOwedKeeps(at, w.owed, w.links, o);
      HeldReload(Owing(plan.steps, plan.owed), o, d);
    }
  }

  lemma {:induction false} ReloadsAreOwable(o: OwedStep, d: Daemon, links: set<string>)
    requires Reloads(o, d)
    ensures Owable(o.name, o.args) && !LinkGone(o, links)
  {
    if d == Udev {
      assert LastArg(o.args) == "--reload";
      assert "--reload"[0] != SYS_CLASS_NET[0];
    }
  }

  // ----- sets ------------------------------------------------------------------------

  ghost predicate DistinctSets(sets: seq<SetElements>) {
    forall i, j :: 0 <= i < j < |sets| ==> sets[i].name != sets[j].name
  }

  lemma {:induction false} ToWriteMembers(desired: seq<SetElements>, held: map<string, seq<string>>)
    ensures forall s :: s in SetsToWrite(desired, held) <==>
        s in desired && s.name in held && held[s.name] != s.elements
    ensures DistinctSets(desired) ==> DistinctSets(SetsToWrite(desired, held))
  {
    if desired != [] {
      ToWriteMembers(desired[1..], held);
      assert desired == [desired[0]] + desired[1..];
      if DistinctSets(desired) {
        assert DistinctSets(desired[1..]);
        var rest := SetsToWrite(desired[1..], held);
        forall j | 0 <= j < |rest| ensures rest[j].name != desired[0].name {
          assert rest[j] in rest;
          var k :| 0 <= k < |desired[1..]| && desired[1..][k] == rest[j];
          assert desired[k + 1] == rest[j];
        }
      }
    }
  }
}
