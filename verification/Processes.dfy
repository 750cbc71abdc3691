/** What a turn does to each process, in terms of the declaration, of what was on disk and of
    which units were up. */
module Processes {
  import opened Orders
  import opened Host
  import opened Planning
  import opened Turns
  import opened PlanFacts
  import opened NothingLost
  import opened Safety
  import opened Effects
  import opened Idempotence
  import opened TableFacts
  import opened DiskFacts
  import Backoff = Unattended

  datatype Process = Session(name: string) | Dnsmasq

  function UnitOf(u: Process): string {
    match u
    case Session(n) => "regied-pppoe@" + n + ".service"
    case Dnsmasq => "regied-dnsmasq.service"
  }

  /** The unit a process runs from; every session runs from the one template. */
  function UnitFile(u: Process): Path {
    match u
    case Session(_) => Path(UnitDir, "regied-pppoe@.service")
    case Dnsmasq => Path(UnitDir, "regied-dnsmasq.service")
  }

  /** Every other file it reads. */
  function Inputs(u: Process): seq<Path> {
    match u
    case Session(n) => [Path(PeersDir, n + ".conf"), Path(CredentialsDir, n + ".conf")]
    case Dnsmasq => [Path(DnsmasqDir, "dnsmasq.conf")]
  }

  predicate Declared(u: Process, r: Rendering) { if u.Session? then u.name in r.sessions else r.dnsmasq }

  // ----- what the turn finds ---------------------------------------------------------

  ghost predicate Differs(r: Rendering, w: World, p: Path) {
    exists a :: a in r.artifacts && a.path == p && !(p in w.disk && w.disk[p] == a.content)
  }

  /** A file the process reads is missing or differs from what is asked. */
  ghost predicate Rewritten(u: Process, r: Rendering, w: World) {
    Differs(r, w, UnitFile(u)) || exists p :: p in Inputs(u) && Differs(r, w, p)
  }

  /** None of what it reads, but its unit, was there of what the turn has to do with. */
  ghost predicate New(u: Process, r: Rendering, listing: seq<Path>, w: World) {
    forall p :: p in Inputs(u) ==> !(p in w.disk && (HasArtifact(r, p) || LeftOver(r, listing, w, p)))
  }

  predicate KnownDown(u: Process, w: World, probe: Probe) { UnitOf(u) in probe.units && UnitOf(u) !in w.active }

  /** A file of an undeclared process is left over, and one of a session's names it. */
  ghost predicate Abandoned(u: Process, r: Rendering, listing: seq<Path>, w: World) {
    && (LeftOver(r, listing, w, UnitFile(u)) || exists p :: p in Inputs(u) && LeftOver(r, listing, w, p))
    && (u.Session? ==> exists p: Path ::
          && (p.dir == PeersDir || p.dir == CredentialsDir)
          && (p.name == u.name + ".conf" || (p.name == u.name && !HasSuffix(p.name, ".conf")))
          && (HasArtifact(r, p) || LeftOver(r, listing, w, p)))
  }

  // ----- the plan's entries for its files --------------------------------------------

  lemma {:induction false} EntryMeans(r: Rendering, listing: seq<Path>, w: World, p: Path)
    requires DistinctPaths(r.artifacts)
    ensures var c := ChangeFor(Files(r, listing, w.disk), p);
            && (WasWritten(c) <==> Differs(r, w, p))
            && (c.kind == Create <==> HasArtifact(r, p) && p !in w.disk)
            && (c.kind == Remove <==> LeftOver(r, listing, w, p))
            && (c.hadBefore <==> p in w.disk && (HasArtifact(r, p) || LeftOver(r, listing, w, p)))
  {
    var files, c := Files(r, listing, w.disk), ChangeFor(Files(r, listing, w.disk), p);
    ChangeForIs(files, p);
    ChangesThere(r, listing, w, p);
    if c in files {
      ChangeForPath(files, p);
      ChangeAt(r, listing, w, c);
      if c.kind != Remove {
        var a :| a in r.artifacts && a.path == p && a.content == c.content;
        OneArtifact(r.artifacts, a, p);
      }
    }
  }

  lemma {:induction false} ChangeForPath(files: seq<FileChange>, p: Path)
    ensures ChangeFor(files, p).path == p
  {
    if files != [] { ChangeForPath(files[1..], p); }
  }

  function ServiceOf(u: Process, r: Rendering, files: seq<FileChange>, w: World, probe: Probe): Service {
    match u
    case Session(n) => SessionService(n, r, files, w, probe)
    case Dnsmasq => DnsmasqService(r, files, w, probe)
  }

  lemma {:induction false} ServiceReads(u: Process, r: Rendering, files: seq<FileChange>, w: World, probe: Probe)
    ensures var s := ServiceOf(u, r, files, w, probe);
            && s.unit == UnitOf(u) && (s.declared <==> Declared(u, r)) && s.unitFile == ChangeFor(files, UnitFile(u))
            && (forall c :: c in s.inputs <==> exists p :: p in Inputs(u) && c == ChangeFor(files, p))
            && (s.active == Some(false) <==> KnownDown(u, w, probe))
  {
    var s := ServiceOf(u, r, files, w, probe);
    assert s.inputs == seq(|Inputs(u)|, i requires 0 <= i < |Inputs(u)| => ChangeFor(files, Inputs(u)[i]));
    forall c ensures c in s.inputs <==> exists p :: p in Inputs(u) && c == ChangeFor(files, p) {
      if c in s.inputs {
        var i :| 0 <= i < |s.inputs| && s.inputs[i] == c;
        assert Inputs(u)[i] in Inputs(u);
      }
      if p :| p in Inputs(u) && c == ChangeFor(files, p) {
        var i :| 0 <= i < |Inputs(u)| && Inputs(u)[i] == p;
        assert s.inputs[i] == c;
      }
    }
  }

  lemma {:induction false} ServiceMeans(u: Process, r: Rendering, listing: seq<Path>, w: World, probe: Probe)
    requires DistinctPaths(r.artifacts)
    ensures var s := ServiceOf(u, r, Files(r, listing, w.disk), w, probe);
            && (Fresh(s) <==> New(u, r, listing, w))
            && (Written(s) <==> Rewritten(u, r, w))
            && (SomethingLeft(s) <==>
                  LeftOver(r, listing, w, UnitFile(u)) || exists p :: p in Inputs(u) && LeftOver(r, listing, w, p))
            && (s.unitFile.kind == Create <==> HasArtifact(r, UnitFile(u)) && UnitFile(u) !in w.disk)
  {
    var files := Files(r, listing, w.disk);
    var s := ServiceOf(u, r, files, w, probe);
    ServiceReads(u, r, files, w, probe);
    EntryMeans(r, listing, w, UnitFile(u));
    forall p | p in Inputs(u)
      ensures ChangeFor(files, p) in s.inputs
      ensures WasWritten(ChangeFor(files, p)) <==> Differs(r, w, p)
      ensures ChangeFor(files, p).kind == Remove <==> LeftOver(r, listing, w, p)
      ensures ChangeFor(files, p).hadBefore <==> p in w.disk && (HasArtifact(r, p) || LeftOver(r, listing, w, p))
    {
      EntryMeans(r, listing, w, p);
    }
    assert forall c :: c in s.inputs ==> exists p :: p in Inputs(u) && c == ChangeFor(files, p);
  }

  // ----- what the plan does to a unit ------------------------------------------------

  predicate Asks(s: Step, args: seq<string>) {
    s.phase == PROCESSES && s.action == Run(Command("systemctl", args, NoInput))
  }

  ghost predicate HasCommand(steps: seq<Step>, args: seq<string>) { exists s :: s in steps && Asks(s, args) }

  /** A command for one unit: its name is the last of two or more words. */
  predicate For(args: seq<string>, unit: string) { |args| >= 2 && args[|args| - 1] == unit }

  lemma {:induction false} ServiceStepFor(s: Service, t: Step)
    requires t in ServiceSteps(s)
    ensures t.phase == PROCESSES && t.action.Run? && t.action.command.name == "systemctl"
        && t.action.command.stdin == NoInput && For(t.action.command.args, s.unit)
  {}

  /** The commands for the unit of one service, each exactly when. */
  lemma {:induction false} ServiceAsks(s: Service, args: seq<string>)
    requires For(args, s.unit)
    ensures var idle := s.declared && !Fresh(s) && s.active != Some(false);
            HasCommand(ServiceSteps(s), args) <==>
              || (args == ["disable", "--now", s.unit] && !s.declared && SomethingLeft(s))
              || (args == ["enable", "--now", s.unit] && s.declared && Fresh(s))
              || (args == ["start", s.unit] && s.declared && !Fresh(s) && s.active == Some(false))
              || (args == ["enable", s.unit] && idle && s.unitFile.kind == Create)
              || (args == ["restart", s.unit] && idle && Written(s))
  {
    var idle := s.declared && !Fresh(s) && s.active != Some(false);
    if idle && (s.unitFile.kind == Create || Written(s)) {
      assert ServiceCommand(["restart", s.unit]) in ServiceSteps(s);
      assert Asks(ServiceCommand(["restart", s.unit]), ["restart", s.unit]);
    }
    if idle && s.unitFile.kind == Create {
      assert Asks(ServiceCommand(["enable", s.unit]), ["enable", s.unit]);
    }
    if s.declared && Fresh(s) { assert Asks(ServiceCommand(["enable", "--now", s.unit]), ["enable", "--now", s.unit]); }
    if s.declared && !Fresh(s) && !idle { assert Asks(ServiceCommand(["start", s.unit]), ["start", s.unit]); }
    if !s.declared && SomethingLeft(s) {
      assert Asks(ServiceCommand(["disable", "--now", s.unit]), ["disable", "--now", s.unit]);
    }
  }

  lemma {:induction false} UnitsDiffer(u: Process, v: Process)
    ensures UnitOf(u) == UnitOf(v) ==> u == v
  {
    if u.Session? { PppoeUnitsDiffer(u.name, if v.Session? then v.name else u.name); }
    if v.Session? { PppoeUnitsDiffer(v.name, v.name); }
  }

  /** A session is settled when it is declared or a file of the plan names it. */
  ghost predicate Settled(u: Process, r: Rendering, files: seq<FileChange>) {
    u.Session? ==> u.name in SessionNames(r, files)
  }

  lemma {:induction false} ProcessStepsMembers(r: Rendering, files: seq<FileChange>, w: World, probe: Probe, t: Step)
    ensures t in ProcessSteps(r, files, w, probe) <==>
              exists u :: Settled(u, r, files) && t in ServiceSteps(ServiceOf(u, r, files, w, probe))
  {
    SessionMembers(SessionNames(r, files), r, files, w, probe, t);
    if t in SessionSteps(SessionNames(r, files), r, files, w, probe) {
      var n :| n in SessionNames(r, files) && t in ServiceSteps(SessionService(n, r, files, w, probe));
      assert Settled(Session(n), r, files) && t in ServiceSteps(ServiceOf(Session(n), r, files, w, probe));
    } else if t in ServiceSteps(DnsmasqService(r, files, w, probe)) {
      assert Settled(Dnsmasq, r, files) && t in ServiceSteps(ServiceOf(Dnsmasq, r, files, w, probe));
    }
  }

  lemma {:induction false} OnlyProcessesAsk(r: Rendering, listing: seq<Path>, w: World, probe: Probe, t: Step,
      args: seq<string>)
    requires t in PlanFor(r, listing, w, probe).steps && |args| >= 2 && Asks(t, args)
    ensures t in ProcessSteps(r, Files(r, listing, w.disk), w, probe)
  {
    var plan := PlanFor(r, listing, w, probe);
    PartsOf(r, listing, w, probe, t);
    SwitchPart(plan.switches);
    RemovalPart(plan.files);
    RecordPart(plan.records);
    assert ReloadOf(Systemd).args == ["daemon-reload"];
  }

  lemma {:induction false} UnitAsks(u: Process, r: Rendering, listing: seq<Path>, w: World, probe: Probe,
      args: seq<string>)
    requires For(args, UnitOf(u))
    ensures var files := Files(r, listing, w.disk);
            HasCommand(PlanFor(r, listing, w, probe).steps, args) <==>
              Settled(u, r, files) && HasCommand(ServiceSteps(ServiceOf(u, r, files, w, probe)), args)
  {
    var files := Files(r, listing, w.disk);
    if t :| t in PlanFor(r, listing, w, probe).steps && Asks(t, args) {
      OnlyProcessesAsk(r, listing, w, probe, t, args);
      ProcessStepsMembers(r, files, w, probe, t);
      var v :| Settled(v, r, files) && t in ServiceSteps(ServiceOf(v, r, files, w, probe));
      ServiceStepFor(ServiceOf(v, r, files, w, probe), t);
      ServiceReads(v, r, files, w, probe);
      UnitsDiffer(u, v);
    }
    if Settled(u, r, files) && HasCommand(ServiceSteps(ServiceOf(u, r, files, w, probe)), args) {
      var t :| t in ServiceSteps(ServiceOf(u, r, files, w, probe)) && Asks(t, args);
      ProcessStepsMembers(r, files, w, probe, t);
      PartsIn(r, listing, w, probe, t);
    }
  }

  lemma {:induction false} NamedBy(files: seq<FileChange>, dir: Dir, n: string)
    ensures n in NamesIn(files, dir) <==>
              exists c :: c in files && c.path.dir == dir
                && (c.path.name == n + ".conf" || (c.path.name == n && !HasSuffix(n, ".conf")))
  {
    if files != [] {
      NamedBy(files[1..], dir, n);
      assert files == [files[0]] + files[1..];
      Trimmed(files[0].path.name, n);
    }
  }

  lemma {:induction false} Trimmed(name: string, n: string)
    ensures TrimConf(name) == n <==> name == n + ".conf" || (name == n && !HasSuffix(n, ".conf"))
  {
    assert (n + ".conf")[..|n|] == n && (n + ".conf")[|n|..] == ".conf";
    if HasSuffix(name, ".conf") { assert name == name[..|name| - 5] + name[|name| - 5..]; }
  }

  lemma {:induction false} SettledMeans(u: Process, r: Rendering, listing: seq<Path>, w: World)
    ensures Settled(u, r, Files(r, listing, w.disk)) <==>
              (u.Session? && u.name !in r.sessions ==> exists p: Path ::
                && (p.dir == PeersDir || p.dir == CredentialsDir)
                && (p.name == u.name + ".conf" || (p.name == u.name && !HasSuffix(p.name, ".conf")))
                && (HasArtifact(r, p) || LeftOver(r, listing, w, p)))
  {
    if u.Session? {
      var files := Files(r, listing, w.disk);
      CanonicalIncreasing(r.sessions + NamesIn(files, PeersDir) + NamesIn(files, CredentialsDir));
      NamedBy(files, PeersDir, u.name);
      NamedBy(files, CredentialsDir, u.name);
      forall p ensures (exists c :: c in files && c.path == p) <==> HasArtifact(r, p) || LeftOver(r, listing, w, p) {
        ChangesThere(r, listing, w, p);
      }
    }
  }

  /** The commands a plan holds for the unit of a process, each exactly when: it is stopped when
      it is abandoned; and of a declared one, brought up when it is new, started when it is known
      to be down, enabled again when its unit was missing, restarted when anything it reads is
      rewritten. */
  lemma {:induction false} PlanAsks(u: Process, r: Rendering, listing: seq<Path>, w: World, probe: Probe,
      args: seq<string>)
    requires DistinctPaths(r.artifacts) && For(args, UnitOf(u))
    ensures var unit, declared, isNew, down := UnitOf(u), Declared(u, r), New(u, r, listing, w), KnownDown(u, w, probe);
            HasCommand(PlanFor(r, listing, w, probe).steps, args) <==>
              || (args == ["disable", "--now", unit] && !declared && Abandoned(u, r, listing, w))
              || (args == ["enable", "--now", unit] && declared && isNew)
              || (args == ["start", unit] && declared && !isNew && down)
              || (args == ["enable", unit] && declared && !isNew && !down
                  && HasArtifact(r, UnitFile(u)) && UnitFile(u) !in w.disk)
              || (args == ["restart", unit] && declared && !isNew && !down && Rewritten(u, r, w))
  {
    var s := ServiceOf(u, r, Files(r, listing, w.disk), w, probe);
    UnitAsks(u, r, listing, w, probe, args);
    SettledMeans(u, r, listing, w);
    ServiceReads(u, r, Files(r, listing, w.disk), w, probe);
    ServiceMeans(u, r, listing, w, probe);
    ServiceAsks(s, args);
  }

  // ----- a unit over the commit ------------------------------------------------------

  /** Nothing but a command that brings the unit up, or takes it down, changes whether it is. */
  lemma {:induction false} StepOnUnit(w: World, s: Step, unit: string)
    ensures unit in Effect(w, s.action).active <==> Starts(s, unit) || (unit in w.active && !Stops(s, unit))
  {
    if s.action.Run? {
      var args := s.action.command.args;
      assert CommandEffect(w, s.action.command) == Do(w, DeedOf(s.action.command));
      if |args| == 2 { assert args == [args[0], args[1]]; }
      if |args| == 3 { assert args == [args[0], args[1], args[2]]; }
    }
  }

  ghost predicate AnyStarts(steps: seq<Step>, unit: string) { exists s :: s in steps && Starts(s, unit) }

  ghost predicate AnyStops(steps: seq<Step>, unit: string) { exists s :: s in steps && Stops(s, unit) }

  /** Over steps that do not both bring a unit up and take it down, it is up for the k-th exactly
      if it was, and none before took it down, or one before brought it up. */
  lemma {:induction false} UnitBefore(w: World, steps: seq<Step>, i: nat, ends: nat -> Outcome, ran: set<StepKey>,
      refused: seq<Step>, unit: string, k: nat)
    requires i <= |steps| && k < |CommitFrom(w, steps, i, ends, ran, refused).trace|
    requires !AnyStarts(steps, unit) || !AnyStops(steps, unit)
    ensures i + k < |steps|
    ensures unit in CommitFrom(w, steps, i, ends, ran, refused).trace[k].before.active <==>
              (unit in w.active || exists j :: i <= j < i + k && Starts(steps[j], unit))
              && forall j :: i <= j < i + k ==> !Stops(steps[j], unit)
    decreases |steps| - i
  {
    if k > 0 {
      var s := steps[i];
      assert s in steps;
      StepOnUnit(w, s, unit);
      if ends(i) == Done {
        UnitBefore(Effect(w, s.action), steps, i + 1, ends, ran + {KeyOf(s)}, refused, unit, k - 1);
      } else {
        UnitBefore(w, steps, i + 1, ends, ran, refused + [s], unit, k - 1);
      }
    }
  }

  lemma {:induction false} UnitAfter(w: World, steps: seq<Step>, i: nat, ends: nat -> Outcome, ran: set<StepKey>,
      refused: seq<Step>, unit: string)
    requires i <= |steps| && CommitFrom(w, steps, i, ends, ran, refused).stopped.None?
    requires !AnyStarts(steps, unit) || !AnyStops(steps, unit)
    ensures unit in CommitFrom(w, steps, i, ends, ran, refused).world.active <==>
              (unit in w.active || exists j :: i <= j < |steps| && Starts(steps[j], unit))
              && forall j :: i <= j < |steps| ==> !Stops(steps[j], unit)
    decreases |steps| - i
  {
    if i < |steps| {
      var s := steps[i];
      assert s in steps;
      StepOnUnit(w, s, unit);
      if ends(i) == Done {
        UnitAfter(Effect(w, s.action), steps, i + 1, ends, ran + {KeyOf(s)}, refused, unit);
      } else {
        UnitAfter(w, steps, i + 1, ends, ran, refused + [s], unit);
      }
    }
  }

  lemma {:induction false} DoneUnlessStopped(w: World, steps: seq<Step>, i: nat, ends: nat -> Outcome,
      ran: set<StepKey>, refused: seq<Step>, k: nat)
    requires i <= |steps| && CommitFrom(w, steps, i, ends, ran, refused).stopped.None?
    requires k < |CommitFrom(w, steps, i, ends, ran, refused).trace|
    requires !CommitFrom(w, steps, i, ends, ran, refused).trace[k].step.action.WriteRecord?
    ensures CommitFrom(w, steps, i, ends, ran, refused).trace[k].ok
    decreases |steps| - i
  {
    if k > 0 {
      var s := steps[i];
      if ends(i) == Done {
        DoneUnlessStopped(Effect(w, s.action), steps, i + 1, ends, ran + {KeyOf(s)}, refused, k - 1);
      } else {
        DoneUnlessStopped(w, steps, i + 1, ends, ran, refused + [s], k - 1);
      }
    }
  }

  // ----- a unit over a turn ----------------------------------------------------------

  lemma {:induction false} StagedUnits(w: World, files: seq<FileChange>, i: nat, ok: nat -> bool)
    requires i <= |files|
    ensures StageFrom(w, files, i, ok).0.active == w.active
    decreases |files| - i
  {
    if i < |files| && !(Touches(files[i]) && !ok(i)) { StagedUnits(StageOne(w, files[i]), files, i + 1, ok); }
  }

  /** The first of the steps to bring a unit up. */
  function FirstStart(steps: seq<Step>, unit: string): (k: nat)
    ensures k <= |steps| && (k < |steps| ==> Starts(steps[k], unit))
    ensures forall j :: 0 <= j < k ==> !Starts(steps[j], unit)
  {
    if steps == [] || Starts(steps[0], unit) then 0 else 1 + FirstStart(steps[1..], unit)
  }

  /** A turn that succeeds: each step tried, in the world it was tried in, and what it leaves. */
  lemma {:induction false} UnitOverTurn(w: World, plan: Plan, declaration: Option<string>, luck: Luck, unit: string)
    requires Turn(w, plan, declaration, luck).ending == Succeeded
    requires !AnyStarts(plan.steps, unit) || !AnyStops(plan.steps, unit)
    ensures var t := Turn(w, plan, declaration, luck);
            && TracksUnit(t, plan.steps, w, unit)
            && (unit in t.world.active <==>
                  (unit in w.active || exists j :: 0 <= j < |plan.steps| && Starts(plan.steps[j], unit))
                  && forall j :: 0 <= j < |plan.steps| ==> !Stops(plan.steps[j], unit))
  {
    var t := Turn(w, plan, declaration, luck);
    TurnTrace(w, plan, declaration, luck);
    if !Empty(plan) {
      var staged := StageFrom(w, plan.files, 0, luck.stage).0;
      var start := Accepting(staged, declaration);
      StagedUnits(w, plan.files, 0, luck.stage);
      UnitAfter(start, plan.steps, 0, luck.commit, {}, [], unit);
      forall k | 0 <= k < |t.trace|
        ensures !plan.steps[k].action.WriteRecord? ==> t.trace[k].ok
        ensures unit in t.trace[k].before.active <==>
                  (unit in w.active || exists j :: 0 <= j < k && Starts(plan.steps[j], unit))
                  && forall j :: 0 <= j < k ==> !Stops(plan.steps[j], unit)
      {
        UnitBefore(start, plan.steps, 0, luck.commit, {}, [], unit, k);
        if !plan.steps[k].action.WriteRecord? { DoneUnlessStopped(start, plan.steps, 0, luck.commit, {}, [], k); }
      }
    }
  }

  // ----- what the plan holds for a unit ----------------------------------------------

  lemma {:induction false} ReloadingIsShort(s: Step)
    requires Reloading(s) && s.action.command.name == "systemctl"
    ensures |s.action.command.args| == 1
  {
    assert ReloadOf(Systemd).args == ["daemon-reload"];
  }

  lemma {:induction false} CommandsAreAsked(r: Rendering, listing: seq<Path>, w: World, probe: Probe, s: Step)
    requires s in PlanFor(r, listing, w, probe).steps
    requires s.action.Run? && s.action.command.name == "systemctl" && |s.action.command.args| >= 2
    ensures Asks(s, s.action.command.args)
    ensures exists u :: For(s.action.command.args, UnitOf(u))
  {
    var plan := PlanFor(r, listing, w, probe);
    PartsOf(r, listing, w, probe, s);
    if !Reloading(s) && s !in ProcessSteps(r, plan.files, w, probe) { NotAProcess(plan, r, w, probe, s); }
    if Reloading(s) { ReloadingIsShort(s); }
    ServiceCommands(r, plan.files, w, probe, s);
  }

  lemma {:induction false} ServiceCommands(r: Rendering, files: seq<FileChange>, w: World, probe: Probe, s: Step)
    requires s in ProcessSteps(r, files, w, probe)
    ensures s.action.Run? && Asks(s, s.action.command.args)
    ensures exists u :: For(s.action.command.args, UnitOf(u))
  {
    ProcessStepsMembers(r, files, w, probe, s);
    var u :| Settled(u, r, files) && s in ServiceSteps(ServiceOf(u, r, files, w, probe));
    ServiceStepFor(ServiceOf(u, r, files, w, probe), s);
    ServiceReads(u, r, files, w, probe);
  }

  lemma {:induction false} StartsAre(steps: seq<Step>, unit: string)
    requires forall s :: s in steps && Starts(s, unit) ==> Asks(s, s.action.command.args)
    ensures AnyStarts(steps, unit) <==>
              || HasCommand(steps, ["enable", "--now", unit]) || HasCommand(steps, ["start", unit])
              || HasCommand(steps, ["restart", unit])
  {
    if s :| s in steps && Asks(s, ["enable", "--now", unit]) { assert Starts(s, unit); }
    if s :| s in steps && Asks(s, ["start", unit]) { assert Starts(s, unit); }
    if s :| s in steps && Asks(s, ["restart", unit]) { assert Starts(s, unit); }
  }

  lemma {:induction false} StopsAre(steps: seq<Step>, unit: string)
    requires forall s :: s in steps && Stops(s, unit) ==> Asks(s, s.action.command.args)
    ensures AnyStops(steps, unit) <==> HasCommand(steps, ["disable", "--now", unit])
  {
    if s :| s in steps && Asks(s, ["disable", "--now", unit]) { assert Stops(s, unit); }
  }

  lemma {:induction false} PlanStarts(u: Process, r: Rendering, listing: seq<Path>, w: World, probe: Probe)
    requires DistinctPaths(r.artifacts)
    ensures AnyStarts(PlanFor(r, listing, w, probe).steps, UnitOf(u)) <==>
              Declared(u, r) && (New(u, r, listing, w) || KnownDown(u, w, probe) || Rewritten(u, r, w))
  {
    var steps, unit := PlanFor(r, listing, w, probe).steps, UnitOf(u);
    forall s | s in steps && Starts(s, unit) ensures Asks(s, s.action.command.args) {
      CommandsAreAsked(r, listing, w, probe, s);
    }
    StartsAre(steps, unit);
    PlanAsks(u, r, listing, w, probe, ["enable", "--now", unit]);
    PlanAsks(u, r, listing, w, probe, ["start", unit]);
    PlanAsks(u, r, listing, w, probe, ["restart", unit]);
  }

  /** A plan brings a declared unit up, and takes it down when it is abandoned, exactly so. */
  lemma {:induction false} PlanMoves(u: Process, r: Rendering, listing: seq<Path>, w: World, probe: Probe)
    requires DistinctPaths(r.artifacts)
    ensures AnyStarts(PlanFor(r, listing, w, probe).steps, UnitOf(u)) <==>
              Declared(u, r) && (New(u, r, listing, w) || KnownDown(u, w, probe) || Rewritten(u, r, w))
    ensures AnyStops(PlanFor(r, listing, w, probe).steps, UnitOf(u)) <==>
              !Declared(u, r) && Abandoned(u, r, listing, w)
  {
    var steps, unit := PlanFor(r, listing, w, probe).steps, UnitOf(u);
    PlanStarts(u, r, listing, w, probe);
    PlanAsks(u, r, listing, w, probe, ["disable", "--now", unit]);
    forall s | s in steps && Stops(s, unit) ensures Asks(s, s.action.command.args) {
      CommandsAreAsked(r, listing, w, probe, s);
    }
    StopsAre(steps, unit);
  }

  // ----- the main results ------------------------------------------------------------

  /** The k-th step of a turn starts the unit anew: it restarts it, or brings it up while it is
      down. */
  predicate Anew(t: TurnResult, k: nat, unit: string)
    requires k < |t.trace|
  {
    t.trace[k].ok
    && (Asks(t.trace[k].step, ["restart", unit])
        || (unit !in t.trace[k].before.active
            && (Asks(t.trace[k].step, ["start", unit]) || Asks(t.trace[k].step, ["enable", "--now", unit]))))
  }

  /** After a turn somebody asked for that succeeds, a declared unit is up exactly if it was, or
      the turn had a reason to bring it up; an undeclared one exactly if it was and nothing of
      it was left over. */
  lemma {:induction false} UnitAfterTurn(u: Process, e: Event, w: World)
    requires e.Attended? && DistinctPaths(e.rendering.artifacts) && ResultOf(e, w).ending == Succeeded
    ensures UnitOf(u) in ResultOf(e, w).world.active <==>
              if Declared(u, e.rendering)
              then UnitOf(u) in w.active || New(u, e.rendering, e.listing, w) || KnownDown(u, w, e.probe)
                   || Rewritten(u, e.rendering, w)
              else UnitOf(u) in w.active && !Abandoned(u, e.rendering, e.listing, w)
  {
    var steps, unit := FullPlan(e, w).steps, UnitOf(u);
    PlanMoves(u, e.rendering, e.listing, w, e.probe);
    UnitOverTurn(w, FullPlan(e, w), e.declaration, e.luck, unit);
    MembersAt(steps, unit);
  }

  lemma {:induction false} MembersAt(steps: seq<Step>, unit: string)
    ensures AnyStarts(steps, unit) <==> exists j :: 0 <= j < |steps| && Starts(steps[j], unit)
    ensures AnyStops(steps, unit) <==> exists j :: 0 <= j < |steps| && Stops(steps[j], unit)
  {
    if s :| s in steps && Starts(s, unit) { var j :| 0 <= j < |steps| && steps[j] == s; }
    if s :| s in steps && Stops(s, unit) { var j :| 0 <= j < |steps| && steps[j] == s; }
    assert forall j :: 0 <= j < |steps| ==> steps[j] in steps;
  }

  /** A turn somebody asked for that succeeds starts a declared unit anew exactly when a file it
      reads is rewritten or it is known to be down; of one that is new, exactly when it is not
      up already. */
  lemma {:induction false} StartedAnew(u: Process, e: Event, w: World)
    requires e.Attended? && DistinctPaths(e.rendering.artifacts) && ResultOf(e, w).ending == Succeeded
    requires Declared(u, e.rendering)
    ensures (exists k :: 0 <= k < |ResultOf(e, w).trace| && Anew(ResultOf(e, w), k, UnitOf(u))) <==>
              if New(u, e.rendering, e.listing, w) then UnitOf(u) !in w.active
              else Rewritten(u, e.rendering, w) || KnownDown(u, w, e.probe)
  {
    PlanMoves(u, e.rendering, e.listing, w, e.probe);
    PlanAsks(u, e.rendering, e.listing, w, e.probe, ["restart", UnitOf(u)]);
    StartsAsked(e.rendering, e.listing, w, e.probe, UnitOf(u));
    AnewOverTurn(w, FullPlan(e, w), e.declaration, e.luck, UnitOf(u));
  }

  ghost predicate AllAsked(steps: seq<Step>, unit: string) {
    forall s :: s in steps && Starts(s, unit) ==> Asks(s, s.action.command.args)
  }

  lemma {:induction false} StartsAsked(r: Rendering, listing: seq<Path>, w: World, probe: Probe, unit: string)
    ensures AllAsked(PlanFor(r, listing, w, probe).steps, unit)
  {
    var steps := PlanFor(r, listing, w, probe).steps;
    forall s | s in steps && Starts(s, unit) ensures Asks(s, s.action.command.args) {
      CommandsAreAsked(r, listing, w, probe, s);
    }
  }

  lemma {:induction false} AnewOverTurn(w: World, plan: Plan, declaration: Option<string>, luck: Luck, unit: string)
    requires Turn(w, plan, declaration, luck).ending == Succeeded
    requires !AnyStops(plan.steps, unit) && AllAsked(plan.steps, unit)
    ensures var t := Turn(w, plan, declaration, luck);
            (exists k :: 0 <= k < |t.trace| && Anew(t, k, unit)) <==>
              HasCommand(plan.steps, ["restart", unit]) || (AnyStarts(plan.steps, unit) && unit !in w.active)
  {
    UnitOverTurn(w, plan, declaration, luck, unit);
    AnewInTrace(Turn(w, plan, declaration, luck), plan.steps, w, unit);
  }

  /** What UnitOverTurn says of a trace. */
  ghost predicate TracksUnit(t: TurnResult, steps: seq<Step>, w: World, unit: string) {
    |t.trace| == |steps|
    && forall k :: 0 <= k < |steps| ==>
         && t.trace[k].step == steps[k] && (!steps[k].action.WriteRecord? ==> t.trace[k].ok)
         && (unit in t.trace[k].before.active <==>
               (unit in w.active || exists j :: 0 <= j < k && Starts(steps[j], unit))
               && forall j :: 0 <= j < k ==> !Stops(steps[j], unit))
  }

  lemma {:induction false} FirstIsAnew(t: TurnResult, steps: seq<Step>, w: World, unit: string)
    requires TracksUnit(t, steps, w, unit) && AllAsked(steps, unit) && AnyStarts(steps, unit) && unit !in w.active
    ensures exists k :: 0 <= k < |t.trace| && Anew(t, k, unit)
  {
    MembersAt(steps, unit);
    var first := FirstStart(steps, unit);
    assert steps[first] in steps;
    assert unit !in t.trace[first].before.active;
    assert Anew(t, first, unit);
  }

  lemma {:induction false} RestartIsAnew(t: TurnResult, steps: seq<Step>, w: World, unit: string)
    requires TracksUnit(t, steps, w, unit) && HasCommand(steps, ["restart", unit])
    ensures exists k :: 0 <= k < |t.trace| && Anew(t, k, unit)
  {
    var s :| s in steps && Asks(s, ["restart", unit]);
    var k :| 0 <= k < |steps| && steps[k] == s;
    assert Anew(t, k, unit);
  }

  lemma {:induction false} AnewIsEither(t: TurnResult, steps: seq<Step>, w: World, unit: string, k: nat)
    requires TracksUnit(t, steps, w, unit) && !AnyStops(steps, unit) && k < |t.trace| && Anew(t, k, unit)
    ensures HasCommand(steps, ["restart", unit]) || (AnyStarts(steps, unit) && unit !in w.active)
  {
    MembersAt(steps, unit);
    assert steps[k] in steps && Starts(steps[k], unit);
  }

  lemma {:induction false} AnewInTrace(t: TurnResult, steps: seq<Step>, w: World, unit: string)
    requires TracksUnit(t, steps, w, unit) && !AnyStops(steps, unit) && AllAsked(steps, unit)
    ensures (exists k :: 0 <= k < |t.trace| && Anew(t, k, unit)) <==>
              HasCommand(steps, ["restart", unit]) || (AnyStarts(steps, unit) && unit !in w.active)
  {
    if HasCommand(steps, ["restart", unit]) {
      RestartIsAnew(t, steps, w, unit);
    } else if AnyStarts(steps, unit) && unit !in w.active {
      FirstIsAnew(t, steps, w, unit);
    } else if k :| 0 <= k < |t.trace| && Anew(t, k, unit) {
      AnewIsEither(t, steps, w, unit, k);
    }
  }

  /** No turn, attended or not and however it ends, restarts a process nothing of which is
      rewritten, starts one that is up, or stops one that is declared. */
  lemma {:induction false} LeftAlone(u: Process, e: Event, w: World, k: nat)
    requires IsTurn(e) && DistinctPaths(e.rendering.artifacts) && k < |ResultOf(e, w).trace|
    ensures var s := ResultOf(e, w).trace[k].step;
            && (!Rewritten(u, e.rendering, w) ==> !Asks(s, ["restart", UnitOf(u)]))
            && (!KnownDown(u, w, e.probe) ==> !Asks(s, ["start", UnitOf(u)]))
            && (Declared(u, e.rendering) ==> !Stops(s, UnitOf(u)))
  {
    var steps, unit := FullPlan(e, w).steps, UnitOf(u);
    var s := ResultOf(e, w).trace[k].step;
    TurnTrace(w, PlanOf(e, w), DeclarationOf(e), e.luck);
    PlanKeepsSteps(e, w);
    assert s in PlanOf(e, w).steps && s in steps;
    PlanAsks(u, e.rendering, e.listing, w, e.probe, ["restart", unit]);
    PlanAsks(u, e.rendering, e.listing, w, e.probe, ["start", unit]);
    PlanMoves(u, e.rendering, e.listing, w, e.probe);
  }

  // ----- an unattended turn ----------------------------------------------------------

  /** What an unattended turn must not do: take a file away, restart or disable. */
  predicate Drastic(s: Step) {
    || s.action.RemoveFile?
    || (s.action.Run? && s.action.command.name == "systemctl"
        && exists i :: 0 <= i < |s.action.command.args|
             && (s.action.command.args[i] == "restart" || s.action.command.args[i] == "disable"))
  }

  lemma {:induction false} ForbiddenIsDrastic(s: Step)
    ensures UnattendedForbidden(s) <==> Drastic(s)
  {}

  lemma {:induction false} CommitTakesDown(w: World, steps: seq<Step>, i: nat, ends: nat -> Outcome,
      ran: set<StepKey>, refused: seq<Step>)
    requires i <= |steps| && forall s :: s in steps ==> !Drastic(s)
    ensures w.active <= CommitFrom(w, steps, i, ends, ran, refused).world.active
    decreases |steps| - i
  {
    if i < |steps| {
      var s := steps[i];
      assert s in steps;
      GentleStep(w, s);
      if ends(i) == Done {
        CommitTakesDown(Effect(w, s.action), steps, i + 1, ends, ran + {KeyOf(s)}, refused);
      } else if s.action.WriteRecord? {
        CommitTakesDown(w, steps, i + 1, ends, ran, refused + [s]);
      }
    }
  }

  lemma {:induction false} GentleStep(w: World, s: Step)
    requires !Drastic(s)
    ensures w.active <= Effect(w, s.action).active
  {
    forall unit | unit in w.active ensures unit in Effect(w, s.action).active {
      StepOnUnit(w, s, unit);
      if Stops(s, unit) { assert s.action.command.args[0] == "disable"; }
    }
  }

  /** An unattended turn, however it ends, tries nothing drastic, and every unit that was up
      stays up. */
  lemma {:induction false} NothingTakenDown(e: Event, w: World)
    requires e.Unattended?
    ensures w.active <= ResultOf(e, w).world.active
    ensures forall k :: 0 <= k < |ResultOf(e, w).trace| ==> !Drastic(ResultOf(e, w).trace[k].step)
  {
    var plan := PlanOf(e, w);
    Backoff.AllowedOnly(e, w);
    forall s | s in plan.steps ensures !Drastic(s) { ForbiddenIsDrastic(s); }
    TurnTrace(w, plan, None, e.luck);
    TurnTakesDown(w, plan, e.luck);
  }

  lemma {:induction false} TurnTakesDown(w: World, plan: Plan, luck: Luck)
    requires forall s :: s in plan.steps ==> !Drastic(s)
    ensures w.active <= Turn(w, plan, None, luck).world.active
  {
    if !Empty(plan) {
      var staged := StageFrom(w, plan.files, 0, luck.stage).0;
      StagedUnits(w, plan.files, 0, luck.stage);
      CommitTakesDown(staged, plan.steps, 0, luck.commit, {}, []);
    }
  }

  /** What an unattended turn would have to do something drastic for. */
  ghost predicate Wants(u: Process, e: Event, w: World)
    requires IsTurn(e)
  {
    if Declared(u, e.rendering)
    then Rewritten(u, e.rendering, w) && !New(u, e.rendering, e.listing, w) && !KnownDown(u, w, e.probe)
    else Abandoned(u, e.rendering, e.listing, w)
  }

  lemma {:induction false} UnitIsNoVerb(u: Process)
    ensures UnitOf(u) != "restart" && UnitOf(u) != "disable"
  {
    assert UnitOf(u)[2] == 'g' && "restart"[2] == 's' && "disable"[2] == 's';
  }

  predicate DrasticFor(s: Step, unit: string) {
    s.action.Run? && For(s.action.command.args, unit) && Asks(s, s.action.command.args) && Drastic(s)
  }

  lemma {:induction false} GentleCommand(s: Step, unit: string)
    requires unit != "restart" && unit != "disable"
    requires Asks(s, ["enable", "--now", unit]) || Asks(s, ["start", unit]) || Asks(s, ["enable", unit])
    ensures !Drastic(s)
  {
    assert "enable"[0] == 'e' && "start"[1] == 't' && "--now"[0] == '-' && "restart"[0] == 'r' && "restart"[1] == 'e'
        && "disable"[0] == 'd' && "disable"[1] == 'i';
  }

  lemma {:induction false} DrasticCommands(u: Process, e: Event, w: World, s: Step)
    requires IsTurn(e) && DistinctPaths(e.rendering.artifacts)
    requires s in FullPlan(e, w).steps && DrasticFor(s, UnitOf(u))
    ensures Wants(u, e, w)
  {
    var unit, args := UnitOf(u), s.action.command.args;
    UnitIsNoVerb(u);
    assert HasCommand(FullPlan(e, w).steps, args);
    PlanAsks(u, e.rendering, e.listing, w, e.probe, args);
    if args == ["enable", "--now", unit] || args == ["start", unit] || args == ["enable", unit] {
      GentleCommand(s, unit);
    }
  }

  lemma {:induction false} DrasticOnUnit(u: Process, e: Event, w: World)
    requires IsTurn(e) && DistinctPaths(e.rendering.artifacts) && Wants(u, e, w)
    ensures exists s :: s in FullPlan(e, w).steps && Drastic(s)
  {
    var args := if Declared(u, e.rendering) then ["restart", UnitOf(u)] else ["disable", "--now", UnitOf(u)];
    PlanAsks(u, e.rendering, e.listing, w, e.probe, args);
    assert HasCommand(FullPlan(e, w).steps, args);
    var s :| s in FullPlan(e, w).steps && Asks(s, args);
    assert s.action.command.args[0] == args[0];
  }

  /** A plan holds something drastic exactly if a process is to be restarted or stopped or a unit
      is left over; and an unattended turn that finds it so ends failing. */
  lemma {:induction false} DrasticIsFailing(e: Event, w: World)
    requires IsTurn(e) && DistinctPaths(e.rendering.artifacts)
    ensures (exists s :: s in FullPlan(e, w).steps && Drastic(s)) <==>
              || (exists u :: Wants(u, e, w))
              || (exists p: Path :: p.dir == UnitDir && LeftOver(e.rendering, e.listing, w, p))
    ensures e.Unattended? && (exists s :: s in FullPlan(e, w).steps && Drastic(s)) ==>
              StateOf(PlanOf(e, w), ResultOf(e, w)) == Failing
  {
    var steps := FullPlan(e, w).steps;
    if s :| s in steps && Drastic(s) {
      WhoseIsDrastic(e, w, s);
      if e.Unattended? {
        ForbiddenIsDrastic(s);
        Backoff.DroppedIsFailing(e, w);
      }
    }
    if u :| Wants(u, e, w) { DrasticOnUnit(u, e, w); }
    if p: Path :| p.dir == UnitDir && LeftOver(e.rendering, e.listing, w, p) {
      var c := RemovalOfLeftOver(e.rendering, e.listing, w, e.probe, p);
      ChangeAt(e.rendering, e.listing, w, c);
      assert TakesAway(steps, p);
    }
  }

  lemma {:induction false} WhoseIsDrastic(e: Event, w: World, s: Step)
    requires IsTurn(e) && DistinctPaths(e.rendering.artifacts) && s in FullPlan(e, w).steps && Drastic(s)
    ensures (exists u :: Wants(u, e, w)) ||
            (exists p: Path :: p.dir == UnitDir && LeftOver(e.rendering, e.listing, w, p))
  {
    if s.action.RemoveFile? {
      PartsOf(e.rendering, e.listing, w, e.probe, s);
      RemovalOrigin(FullPlan(e, w), e.rendering, w, e.probe, s);
      var c :| c in FullPlan(e, w).files && c.deferred && c.kind == Remove && c.path == s.action.path;
      ChangeAt(e.rendering, e.listing, w, c);
    } else {
      LongCommand(e, w, s);
      CommandsAreAsked(e.rendering, e.listing, w, e.probe, s);
      var u :| For(s.action.command.args, UnitOf(u));
      DrasticCommands(u, e, w, s);
    }
  }

  lemma {:induction false} ReloadingIsGentle(s: Step)
    requires Reloading(s)
    ensures !Drastic(s)
  {
    if s.action.command == ReloadOf(Systemd) { assert s.action.command.args == ["daemon-reload"]; }
    assert "daemon-reload"[1] == 'a' && "restart"[1] == 'e' && "disable"[1] == 'i';
  }

  lemma {:induction false} LongCommand(e: Event, w: World, s: Step)
    requires IsTurn(e) && s in FullPlan(e, w).steps && Drastic(s) && s.action.Run?
    ensures |s.action.command.args| >= 2
  {
    PartsOf(e.rendering, e.listing, w, e.probe, s);
    if Reloading(s) { ReloadingIsGentle(s); } else { LongPart(FullPlan(e, w), e.rendering, w, e.probe, s); }
  }

  lemma {:induction false} LongPart(plan: Plan, r: Rendering, w: World, probe: Probe, s: Step)
    requires InParts(plan, r, w, probe, s) && !Reloading(s) && s.action.Run? && s.action.command.name == "systemctl"
    ensures |s.action.command.args| >= 2
  {
    if s in ProcessSteps(r, plan.files, w, probe) {
      ProcessPart(r, plan.files, w, probe);
    } else {
      NotAProcess(plan, r, w, probe, s);
    }
  }

  lemma {:induction false} NotAProcess(plan: Plan, r: Rendering, w: World, probe: Probe, s: Step)
    requires InParts(plan, r, w, probe, s) && s !in ProcessSteps(r, plan.files, w, probe)
    ensures s.action.Run? && s.action.command.name == "systemctl" ==> Reloading(s)
  {
    SwitchPart(plan.switches);
    RemovalPart(plan.files);
    RecordPart(plan.records);
  }
}
