/** What has been read by the time a process is started, and which process comes last. */
module ProcessOrder {
  import opened Orders
  import opened Host
  import opened Planning
  import opened Turns
  import opened OwingFacts
  import opened PlanFacts
  import opened NothingLost
  import opened Safety
  import opened Idempotence
  import opened TableFacts
  import opened DiskFacts
  import opened Processes

  // ----- files are read before processes are started ---------------------------------

  lemma {:induction false} EffectAgrees(w: World, a: Action, p: Path)
    requires Agrees(w, p) && a != RemoveFile(p)
    ensures Agrees(Effect(w, a), p)
  {
    if a.Run? { assert CommandEffect(w, a.command) == Do(w, DeedOf(a.command)); }
  }

  lemma {:induction false} AgreesOn(w: World, steps: seq<Step>, i: nat, ends: nat -> Outcome, ran: set<StepKey>,
      refused: seq<Step>, p: Path, k: nat)
    requires i <= |steps| && k < |CommitFrom(w, steps, i, ends, ran, refused).trace|
    requires Agrees(w, p) && !TakesAway(steps, p)
    ensures Agrees(CommitFrom(w, steps, i, ends, ran, refused).trace[k].before, p)
    decreases |steps| - i
  {
    if k > 0 {
      var s := steps[i];
      assert s in steps;
      EffectAgrees(w, s.action, p);
      if ends(i) == Done {
        AgreesOn(Effect(w, s.action), steps, i + 1, ends, ran + {KeyOf(s)}, refused, p, k - 1);
      } else {
        AgreesOn(w, steps, i + 1, ends, ran, refused + [s], p, k - 1);
      }
    }
  }

  /** After its reader's reload a file stays read until it is taken away. */
  lemma {:induction false} AgreesAfterReload(w: World, steps: seq<Step>, i: nat, ends: nat -> Outcome,
      ran: set<StepKey>, refused: seq<Step>, p: Path, d: Daemon, j: nat, k: nat)
    requires i <= j < |steps| && j - i < k < |CommitFrom(w, steps, i, ends, ran, refused).trace|
    requires IsReload(steps[j], d) && ReaderOf(p) == Some(d) && !TakesAway(steps, p)
    ensures Agrees(CommitFrom(w, steps, i, ends, ran, refused).trace[k].before, p)
    decreases |steps| - i
  {
    var s := steps[i];
    if j == i {
      ReloadEffect(w, s, d);
      assert ends(i) == Done;
      AgreesOn(Effect(w, s.action), steps, i + 1, ends, ran + {KeyOf(s)}, refused, p, k - 1);
    } else if ends(i) == Done {
      AgreesAfterReload(Effect(w, s.action), steps, i + 1, ends, ran + {KeyOf(s)}, refused, p, d, j, k - 1);
    } else {
      AgreesAfterReload(w, steps, i + 1, ends, ran, refused + [s], p, d, j, k - 1);
    }
  }

  lemma {:induction false} TurnHasRead(w: World, plan: Plan, declaration: Option<string>, luck: Luck, p: Path,
      d: Daemon, j: nat, k: nat)
    requires j < k < |Turn(w, plan, declaration, luck).trace| && j < |plan.steps|
    requires IsReload(plan.steps[j], d) && ReaderOf(p) == Some(d) && !TakesAway(plan.steps, p)
    ensures Agrees(Turn(w, plan, declaration, luck).trace[k].before, p)
  {
    var staged := StageFrom(w, plan.files, 0, luck.stage).0;
    AgreesAfterReload(Accepting(staged, declaration), plan.steps, 0, luck.commit, {}, [], p, d, j, k);
  }

  /** A rewritten file's reader is told in a phase before the processes'. */
  lemma {:induction false} ToldEarly(r: Rendering, listing: seq<Path>, w: World, probe: Probe, p: Path, d: Daemon)
      returns (s: Step)
    requires DistinctPaths(r.artifacts) && Differs(r, w, p) && ReaderOf(p) == Some(d)
    ensures s in PlanFor(r, listing, w, probe).steps && s.phase < PROCESSES && IsReload(s, d)
  {
    var plan := PlanFor(r, listing, w, probe);
    EntryMeans(r, listing, w, p);
    ChangeForIs(plan.files, p);
    var c := ChangeFor(plan.files, p);
    assert c in plan.files && c.path == p && WasWritten(c);
    s := if d == Systemd then ReloadStep(PROCESS_CONFIG, Systemd) else ReloadStep(NETWORKD, d);
    var steps := Native(plan, r, w, probe);
    if d == Systemd {
      assert s in UnitReload(plan.files);
    } else {
      assert ChangedFor(plan.files, d) && s in NetworkdSteps(r, plan.files, w.links);
    }
    assert s in steps;
    AddOwedGrows(Owing(steps, OwedOf(steps)), w.owed, w.links);
  }

  /** When a turn somebody asked for comes to a process, every file it has written that somebody
      reads has been read. */
  lemma {:induction false} ReadBeforeProcesses(e: Event, w: World, k: nat, p: Path)
    requires e.Attended? && DistinctPaths(e.rendering.artifacts) && k < |ResultOf(e, w).trace|
    requires ResultOf(e, w).trace[k].step.phase >= PROCESSES
    requires Differs(e.rendering, w, p) && ReaderOf(p).Some?
    ensures Agrees(ResultOf(e, w).trace[k].before, p)
  {
    var plan, d := FullPlan(e, w), ReaderOf(p).value;
    var s := ToldEarly(e.rendering, e.listing, w, e.probe, p, d);
    var j := PlaceOf(plan.steps, s);
    PlanIsSound(e.rendering, e.listing, w, e.probe);
    TurnTrace(w, plan, e.declaration, e.luck);
    EarlierPhase(plan.steps, j, k);
    RemovalsPlanned(e, w, p);
    TurnHasRead(w, plan, e.declaration, e.luck, p, d, j, k);
  }

  // ----- what comes before what ------------------------------------------------------

  /** No step of the second kind comes after one of the first. */
  ghost predicate Never(steps: seq<Step>, first: Step -> bool, second: Step -> bool) {
    forall i, j :: 0 <= i < j < |steps| && first(steps[i]) ==> !second(steps[j])
  }

  ghost predicate None_(steps: seq<Step>, kind: Step -> bool) { forall s :: s in steps ==> !kind(s) }

  lemma {:induction false} JoinNever(a: seq<Step>, b: seq<Step>, first: Step -> bool, second: Step -> bool)
    requires Never(a, first, second) && Never(b, first, second) && (None_(a, first) || None_(b, second))
    ensures Never(a + b, first, second)
  {
    var all := a + b;
    forall i, j | 0 <= i < j < |all| && first(all[i]) ensures !second(all[j]) {
      if i < |a| <= j { assert a[i] in a && b[j - |a|] in b; }
    }
  }

  lemma {:induction false} PlainNever(steps: seq<Step>, first: Step -> bool, second: Step -> bool)
    requires None_(steps, first) || None_(steps, second)
    ensures Never(steps, first, second)
  {
    assert forall i :: 0 <= i < |steps| ==> steps[i] in steps;
  }

  lemma {:induction false} BetweenNever(a: seq<Step>, s: Step, b: seq<Step>, first: Step -> bool, second: Step -> bool)
    requires Never(a + b, first, second) && !first(s) && !second(s)
    ensures Never(a + [s] + b, first, second)
  {
    var all, less := a + [s] + b, a + b;
    forall i, j | 0 <= i < j < |all| && first(all[i]) ensures !second(all[j]) {
      if j != |a| {
        assert all[i] == less[if i < |a| then i else i - 1] && all[j] == less[if j < |a| then j else j - 1];
      }
    }
  }

  /** What earlier turns left owed is put in without changing the order of anything else. */
  lemma {:induction false} AddOwedNever(at: Owing, owed: seq<OwedStep>, links: set<string>, first: Step -> bool,
      second: Step -> bool)
    requires Never(at.steps, first, second) && forall s :: Reloading(s) ==> !first(s) && !second(s)
    ensures Never(AddOwed(at, owed, links).steps, first, second)
    decreases |owed|
  {
    if owed != [] {
      if Skipped(owed[0], at.steps, links) {
        AddOwedNever(at, owed[1..], links, first, second);
      } else {
        var step := StepFor(owed[0]);
        var k := InsertAt(at.steps, step);
        OwableReloads(owed[0]);
        assert at.steps == at.steps[..k] + at.steps[k..];
        BetweenNever(at.steps[..k], step, at.steps[k..], first, second);
        AddOwedNever(Owing(InsertStep(at.steps, step), at.owed + [owed[0]]), owed[1..], links, first, second);
      }
    }
  }

  predicate OnUnit(s: Step, u: Process) {
    s.action.Run? && s.action.command.name == "systemctl" && For(s.action.command.args, UnitOf(u))
  }

  /** A kind of command for processes: nothing else is of it. */
  ghost predicate OfProcesses(kind: Step -> bool) { forall s :: kind(s) ==> exists u :: OnUnit(s, u) }

  lemma {:induction false} NotOfProcesses(s: Step)
    requires !(s.action.Run? && s.action.command.name == "systemctl" && |s.action.command.args| >= 2)
    ensures forall u :: !OnUnit(s, u)
  {}

  lemma {:induction false} EarlyOfNone(r: Rendering, files: seq<FileChange>, links: set<string>, f: FirewallChange,
      switches: seq<SwitchChange>, kind: Step -> bool)
    requires OfProcesses(kind)
    ensures None_(FirewallSteps(f) + SwitchSteps(switches) + NetworkdSteps(r, files, links) + UnitReload(files), kind)
  {
    SwitchPart(switches);
    forall s | s in NetworkdSteps(r, files, links) ensures Reloading(s) { NetworkdReloads(s, r, files, links); }
    forall s | s in FirewallSteps(f) + SwitchSteps(switches) + NetworkdSteps(r, files, links) + UnitReload(files)
      ensures !kind(s)
    {
      NotOfProcesses(s);
    }
  }

  lemma {:induction false} RemovalsOfNone(files: seq<FileChange>, kind: Step -> bool)
    requires OfProcesses(kind)
    ensures None_(DeferredReclaim(files), kind)
  {
    RemovalPart(files);
    forall s | s in DeferredReclaim(files) ensures !kind(s) { NotOfProcesses(s); }
  }

  lemma {:induction false} RecordsOfNone(records: seq<RecordChange>, kind: Step -> bool)
    requires OfProcesses(kind)
    ensures None_(RecordSteps(records), kind)
  {
    RecordPart(records);
    forall s | s in RecordSteps(records) ensures !kind(s) { NotOfProcesses(s); }
  }

  lemma {:induction false} AroundProcesses(a: seq<Step>, p: seq<Step>, b: seq<Step>, c: seq<Step>,
      first: Step -> bool, second: Step -> bool)
    requires None_(a, first) && None_(a, second) && Never(p, first, second) && None_(b, second) && None_(c, second)
    requires None_(b, first) && None_(c, first)
    ensures Never(a + p + b + c, first, second)
  {
    PlainNever(a, first, second);
    PlainNever(b, first, second);
    PlainNever(c, first, second);
    JoinNever(a, p, first, second);
    JoinNever(a + p, b, first, second);
    JoinNever(a + p + b, c, first, second);
  }

  /** What holds of the order of the processes' own commands holds of the plan's. */
  lemma {:induction false} PlanNever(r: Rendering, listing: seq<Path>, w: World, probe: Probe, first: Step -> bool,
      second: Step -> bool)
    requires OfProcesses(first) && OfProcesses(second)
    requires Never(ProcessSteps(r, Files(r, listing, w.disk), w, probe), first, second)
    ensures Never(PlanFor(r, listing, w, probe).steps, first, second)
  {
    var p := PlanFor(r, listing, w, probe);
    var steps := Native(p, r, w, probe);
    EarlyOfNone(r, p.files, w.links, p.firewall, p.switches, first);
    EarlyOfNone(r, p.files, w.links, p.firewall, p.switches, second);
    RemovalsOfNone(p.files, first);
    RemovalsOfNone(p.files, second);
    RecordsOfNone(p.records, first);
    RecordsOfNone(p.records, second);
    AroundProcesses(FirewallSteps(p.firewall) + SwitchSteps(p.switches) + NetworkdSteps(r, p.files, w.links)
                    + UnitReload(p.files), ProcessSteps(r, p.files, w, probe), DeferredReclaim(p.files),
                    RecordSteps(p.records), first, second);
    forall s | Reloading(s) ensures !first(s) && !second(s) { ReloadingOfNone(s); }
    AddOwedNever(Owing(steps, OwedOf(steps)), w.owed, w.links, first, second);
  }

  lemma {:induction false} ReloadingOfNone(s: Step)
    requires Reloading(s)
    ensures forall u :: !OnUnit(s, u)
  {
    NotOfProcesses(s);
  }

  // ----- dnsmasq comes last ----------------------------------------------------------

  lemma {:induction false} ServiceIsOn(u: Process, r: Rendering, files: seq<FileChange>, w: World, probe: Probe,
      kind: Step -> bool)
    requires forall s :: kind(s) ==> !OnUnit(s, u)
    ensures None_(ServiceSteps(ServiceOf(u, r, files, w, probe)), kind)
  {
    ServiceReads(u, r, files, w, probe);
    forall t | t in ServiceSteps(ServiceOf(u, r, files, w, probe)) ensures OnUnit(t, u) {
      ServiceStepFor(ServiceOf(u, r, files, w, probe), t);
    }
  }

  lemma {:induction false} SessionsAreOn(names: seq<string>, r: Rendering, files: seq<FileChange>, w: World,
      probe: Probe, kind: Step -> bool)
    requires forall s, n :: kind(s) && n in names ==> !OnUnit(s, Session(n))
    ensures None_(SessionSteps(names, r, files, w, probe), kind)
  {
    if names != [] {
      assert names == [names[0]] + names[1..];
      ServiceIsOn(Session(names[0]), r, files, w, probe, kind);
      SessionsAreOn(names[1..], r, files, w, probe, kind);
    }
  }

  lemma {:induction false} OneUnit(s: Step, u: Process, v: Process)
    requires OnUnit(s, u) && OnUnit(s, v)
    ensures u == v
  {
    UnitsDiffer(u, v);
  }

  ghost predicate OnSession(s: Step) { exists n :: OnUnit(s, Session(n)) }

  function OnDnsmasq(): Step -> bool { s => OnUnit(s, Dnsmasq) }

  ghost function OnAnySession(): Step -> bool { s => OnSession(s) }

  lemma {:induction false} SessionsThenDnsmasq(r: Rendering, files: seq<FileChange>, w: World, probe: Probe)
    ensures Never(ProcessSteps(r, files, w, probe), OnDnsmasq(), OnAnySession())
  {
    var sessions := SessionSteps(SessionNames(r, files), r, files, w, probe);
    var dnsmasq := ServiceSteps(DnsmasqService(r, files, w, probe));
    forall s, n | OnUnit(s, Dnsmasq) ensures !OnUnit(s, Session(n)) {
      if OnUnit(s, Session(n)) { OneUnit(s, Dnsmasq, Session(n)); }
    }
    SessionsAreOn(SessionNames(r, files), r, files, w, probe, OnDnsmasq());
    ServiceIsOn(Dnsmasq, r, files, w, probe, OnAnySession());
    PlainNever(sessions, OnDnsmasq(), OnAnySession());
    PlainNever(dnsmasq, OnDnsmasq(), OnAnySession());
    JoinNever(sessions, dnsmasq, OnDnsmasq(), OnAnySession());
  }

  /** dnsmasq, which binds to the addresses the links hold, comes after every session, whatever
      earlier turns left owed. */
  lemma {:induction false} DnsmasqLast(r: Rendering, listing: seq<Path>, w: World, probe: Probe)
    ensures Never(PlanFor(r, listing, w, probe).steps, OnDnsmasq(), OnAnySession())
  {
    SessionsThenDnsmasq(r, Files(r, listing, w.disk), w, probe);
    PlanNever(r, listing, w, probe, OnDnsmasq(), OnAnySession());
  }

  // ----- a unit is enabled before it is restarted ------------------------------------

  function Restarts(u: Process): Step -> bool { s => Asks(s, ["restart", UnitOf(u)]) }

  function Enables(u: Process): Step -> bool { s => Asks(s, ["enable", UnitOf(u)]) }

  lemma {:induction false} VerbsOnUnit(s: Step, u: Process)
    ensures Restarts(u)(s) || Enables(u)(s) ==> OnUnit(s, u)
  {}

  lemma {:induction false} OneServiceNever(u: Process, v: Process, r: Rendering, files: seq<FileChange>, w: World,
      probe: Probe)
    ensures Never(ServiceSteps(ServiceOf(v, r, files, w, probe)), Restarts(u), Enables(u))
  {
    var s := ServiceOf(v, r, files, w, probe);
    ServiceReads(v, r, files, w, probe);
    if |ServiceSteps(s)| == 2 {
      assert ServiceSteps(s)[0] == ServiceCommand(["enable", s.unit]);
      assert "enable" != "restart" by { assert "enable"[0] != "restart"[0]; }
      assert !Restarts(u)(ServiceSteps(s)[0]);
    }
  }

  lemma {:induction false} OtherServiceNone(u: Process, v: Process, r: Rendering, files: seq<FileChange>, w: World,
      probe: Probe)
    requires u != v
    ensures None_(ServiceSteps(ServiceOf(v, r, files, w, probe)), Restarts(u))
    ensures None_(ServiceSteps(ServiceOf(v, r, files, w, probe)), Enables(u))
  {
    forall s | Restarts(u)(s) || Enables(u)(s) ensures !OnUnit(s, v) {
      VerbsOnUnit(s, u);
      if OnUnit(s, v) { OneUnit(s, u, v); }
    }
    ServiceIsOn(v, r, files, w, probe, Restarts(u));
    ServiceIsOn(v, r, files, w, probe, Enables(u));
  }

  lemma {:induction false} SessionsNever(u: Process, names: seq<string>, r: Rendering, files: seq<FileChange>, w: World,
      probe: Probe)
    requires StrictlyIncreasing(names)
    ensures Never(SessionSteps(names, r, files, w, probe), Restarts(u), Enables(u))
    ensures (u.Session? ==> u.name !in names) ==>
              None_(SessionSteps(names, r, files, w, probe), Restarts(u))
              && None_(SessionSteps(names, r, files, w, probe), Enables(u))
  {
    if names != [] {
      var v, rest := Session(names[0]), names[1..];
      assert names == [names[0]] + rest;
      SessionsNever(u, rest, r, files, w, probe);
      OneServiceNever(u, v, r, files, w, probe);
      if u != v { OtherServiceNone(u, v, r, files, w, probe); }
      JoinNever(ServiceSteps(ServiceOf(v, r, files, w, probe)), SessionSteps(rest, r, files, w, probe), Restarts(u),
          Enables(u));
    }
  }

  lemma {:induction false} ProcessesNever(u: Process, r: Rendering, files: seq<FileChange>, w: World, probe: Probe)
    ensures Never(ProcessSteps(r, files, w, probe), Restarts(u), Enables(u))
  {
    var names := SessionNames(r, files);
    CanonicalIncreasing(r.sessions + NamesIn(files, PeersDir) + NamesIn(files, CredentialsDir));
    SessionsNever(u, names, r, files, w, probe);
    OneServiceNever(u, Dnsmasq, r, files, w, probe);
    if u != Dnsmasq { OtherServiceNone(u, Dnsmasq, r, files, w, probe); }
    JoinNever(SessionSteps(names, r, files, w, probe), ServiceSteps(DnsmasqService(r, files, w, probe)), Restarts(u),
        Enables(u));
  }

  /** A unit that was put back is enabled before it is restarted. */
  lemma {:induction false} EnabledFirst(u: Process, r: Rendering, listing: seq<Path>, w: World, probe: Probe)
    ensures Never(PlanFor(r, listing, w, probe).steps, Restarts(u), Enables(u))
  {
    forall s ensures Restarts(u)(s) || Enables(u)(s) ==> OnUnit(s, u) { VerbsOnUnit(s, u); }
    ProcessesNever(u, r, Files(r, listing, w.disk), w, probe);
    PlanNever(r, listing, w, probe, Restarts(u), Enables(u));
  }
}
