/** The firewall's part of settling, and the whole: what has to hold for the turn after one
    that succeeded to find nothing to do. */
module Quiet {
  import opened Orders
  import opened Host
  import opened Planning
  import opened Turns
  import opened PlanFacts
  import opened NothingLost
  import opened Safety
  import opened Effects
  import opened Idempotence

  // ----- the steps that touch the table ----------------------------------------------

  lemma {:induction false} ServiceNotOnTable(t: Step)
    requires IsService(t)
    ensures !OnTable(t)
  {}

  lemma {:induction false} FirewallOnTable(f: FirewallChange)
    ensures TableSteps(FirewallSteps(f)) == FirewallSteps(f)
  {
    var s := FirewallSteps(f);
    if s != [] {
      assert OnTable(s[0]);
      if |s| == 2 {
        assert OnTable(s[1]);
        assert s[1..][0] == s[1] && s[1..][1..] == [];
        assert TableSteps(s[1..]) == [s[1]];
      } else {
        assert s[1..] == [];
      }
    }
  }

  lemma {:induction false} LateNotOnTable(files: seq<FileChange>)
    ensures forall s :: s in DeferredReclaim(files) ==> !OnTable(s)
  {
    RemovalPart(files);
  }

  lemma {:induction false} RestNotOnTable(p: Plan, r: Rendering, w: World, probe: Probe, s: Step)
    requires s in SwitchSteps(p.switches) || s in NetworkdSteps(r, p.files, w.links) || s in UnitReload(p.files)
      || s in ProcessSteps(r, p.files, w, probe) || s in DeferredReclaim(p.files) || s in RecordSteps(p.records)
    ensures !OnTable(s)
  {
    SwitchPart(p.switches);
    LateNotOnTable(p.files);
    RecordPart(p.records);
    if s in NetworkdSteps(r, p.files, w.links) || s in UnitReload(p.files) { OthersReload(p, r, w, s); }
    else if s in ProcessSteps(r, p.files, w, probe) { ProcessPart(r, p.files, w, probe); ServiceNotOnTable(s); }
  }

  lemma {:induction false} SevenOnTable(a: seq<Step>, b: seq<Step>, c: seq<Step>, d: seq<Step>, e: seq<Step>,
      f: seq<Step>, g: seq<Step>)
    requires forall s :: s in b || s in c || s in d || s in e || s in f || s in g ==> !OnTable(s)
    ensures TableSteps(a + b + c + d + e + f + g) == TableSteps(a)
  {
    var rest := b + c + d + e + f + g;
    assert a + b + c + d + e + f + g == a + rest;
    assert forall s :: s in rest ==> !OnTable(s);
    TableStepsJoin(a, rest);
    TableStepsNone(rest);
  }

  lemma {:induction false} PlanOnTable(r: Rendering, listing: seq<Path>, w: World, probe: Probe)
    ensures TableSteps(PlanFor(r, listing, w, probe).steps) == FirewallSteps(PlanFor(r, listing, w, probe).firewall)
  {
    var p := PlanFor(r, listing, w, probe);
    var steps := Native(p, r, w, probe);
    TableStepsOwed(Owing(steps, OwedOf(steps)), w.owed, w.links);
    forall s | s in SwitchSteps(p.switches) || s in NetworkdSteps(r, p.files, w.links) || s in UnitReload(p.files)
      || s in ProcessSteps(r, p.files, w, probe) || s in DeferredReclaim(p.files) || s in RecordSteps(p.records)
      ensures !OnTable(s)
    { RestNotOnTable(p, r, w, probe, s); }
    SevenOnTable(FirewallSteps(p.firewall), SwitchSteps(p.switches),
        NetworkdSteps(r, p.files, w.links), UnitReload(p.files),
      ProcessSteps(r, p.files, w, probe), DeferredReclaim(p.files), RecordSteps(p.records));
    FirewallOnTable(p.firewall);
  }

  // ----- the table afterwards --------------------------------------------------------

  /** The table the firewall's steps leave. */
  function TableAfter(table: Option<Table>, f: FirewallChange): Option<Table> {
    var base := if f.apply then Some(Table(f.ruleset, f.ruleset.declared)) else table;
    if base.None? || f.elements == [] then base
    else Some(base.value.(sets := Seeded(base.value.sets, f.elements)))
  }

  lemma {:induction false} OneStep(w: World, s: Step)
    ensures RunAll(w, [s]) == Effect(w, s.action)
  {
    assert [s][1..] == [];
    assert RunAll(Effect(w, s.action), []) == Effect(w, s.action);
  }

  lemma {:induction false} FirewallRuns(w: World, f: FirewallChange)
    ensures RunAll(w, FirewallSteps(f)).table == TableAfter(w.table, f)
  {
    var install := Step(FIREWALL, Run(NftCommand(RulesetInput(f.ruleset))), false);
    var seed := Step(FIREWALL, SeedSets(f.elements), false);
    assert Effect(w, install.action) == Do(w, PutTable(f.ruleset));
    OneStep(w, install);
    OneStep(w, seed);
    if f.apply && f.elements != [] {
      assert FirewallSteps(f) == [install, seed] && [install, seed][1..] == [seed];
      OneStep(Effect(w, install.action), seed);
    }
  }

  lemma {:induction false} TableSettles(w: World, r: Rendering, listing: seq<Path>, probe: Probe)
    ensures RunAll(w, PlanFor(r, listing, w, probe).steps).table ==
        TableAfter(w.table, PlanFor(r, listing, w, probe).firewall)
  {
    var p := PlanFor(r, listing, w, probe);
    TableOnly(w, w, p.steps);
    PlanOnTable(r, listing, w, probe);
    FirewallRuns(w, p.firewall);
  }

  ghost predicate AllIncreasing(sets: seq<SetElements>) {
    forall s :: s in sets ==> StrictlyIncreasing(s.elements)
  }

  /** What one set holds once the sets to write are seeded. */
  lemma {:induction false} HeldAfter(desired: seq<SetElements>, held: map<string, seq<string>>,
      base: map<string, seq<string>>, s: SetElements)
    requires DistinctSets(desired) && s in desired
    requires s.name in held <==> s.name in base
    requires s.name in held ==> held[s.name] == base[s.name]
    ensures var after := Seeded(base, SetsToWrite(desired, held));
            && (s.name in after <==> s.name in base)
            && (s.name in after ==>
                  after[s.name] == if s in SetsToWrite(desired, held) then Canonical(s.elements) else s.elements)
  {
    var writes := SetsToWrite(desired, held);
    ToWriteMembers(desired, held);
    SeededHolds(base, writes, s.name);
    forall t | t in writes && t.name == s.name ensures t == s { SameSet(desired, s, t); }
  }

  lemma {:induction false} SameSet(desired: seq<SetElements>, s: SetElements, t: SetElements)
    requires DistinctSets(desired) && s in desired && t in desired && s.name == t.name
    ensures s == t
  {
    var i :| 0 <= i < |desired| && desired[i] == s;
    var j :| 0 <= j < |desired| && desired[j] == t;
    assert i == j;
  }

  /** The sets written once are written again exactly when one is not in the order it is read back in. */
  lemma {:induction false} WrittenAgain(desired: seq<SetElements>, held: map<string, seq<string>>,
      base: map<string, seq<string>>)
    requires DistinctSets(desired)
    requires forall s :: s in desired ==> (s.name in held <==> s.name in base)
    requires forall s :: s in desired && s.name in held ==> held[s.name] == base[s.name]
    ensures SetsToWrite(desired, Seeded(base, SetsToWrite(desired, held))) == [] <==>
        AllIncreasing(SetsToWrite(desired, held))
  {
    var writes := SetsToWrite(desired, held);
    var after := Seeded(base, writes);
    var more := SetsToWrite(desired, after);
    ToWriteMembers(desired, held);
    ToWriteMembers(desired, after);
    forall s | s in desired ensures s in more <==> s in writes && !StrictlyIncreasing(s.elements) {
      HeldAfter(desired, held, base, s);
      CanonicalFixedPoint(s.elements);
    }
    if more == [] {
      forall s | s in writes ensures StrictlyIncreasing(s.elements) { assert s !in more; }
    } else {
      assert more[0] in more;
    }
  }

  lemma {:induction false} FirewallSettled(r: Rendering, w: World, after: World, probe: Probe)
    requires WellFormed(r)
    requires var f := Firewall(r.ruleset, r.sets, w, probe);
             after.table == TableAfter(w.table, f)
             && after.installed == (if f.apply then Some(f.ruleset) else w.installed)
    ensures var again := Firewall(r.ruleset, r.sets, after, probe);
            && !again.apply
            && (again.elements == [] <==>
                  (probe.sets ==> AllIncreasing(Firewall(r.ruleset, r.sets, w, probe).elements)))
  {
    var f := Firewall(r.ruleset, r.sets, w, probe);
    if probe.sets {
      if f.apply {
        WrittenAgain(r.sets, EmptySets(r.sets), r.ruleset.declared);
      } else if w.table.Some? {
        WrittenAgain(r.sets, w.table.value.sets, w.table.value.sets);
      }
    }
  }

  // ----- the whole -------------------------------------------------------------------

  lemma {:induction false} NothingToReload(r: Rendering, files: seq<FileChange>, links: set<string>)
    requires AllSettled(files)
    ensures NetworkdSteps(r, files, links) == [] && UnitReload(files) == [] && DeferredReclaim(files) == []
  {
    RemovalPart(files);
    if RemovalSteps(files) != [] { assert RemovalSteps(files)[0] in RemovalSteps(files); }
  }

  lemma {:induction false} NoSwitchSteps(switches: seq<SwitchChange>)
    requires forall s :: s in switches ==> !s.changed
    ensures SwitchSteps(switches) == []
  {
    SwitchStepMembers(switches);
    if SwitchSteps(switches) != [] { assert SwitchSteps(switches)[0] in SwitchSteps(switches); }
  }

  /** Everything but the firewall is settled. */
  lemma {:induction false} OnlyFirewallLeft(r: Rendering, listing: seq<Path>, w: World, probe: Probe, again: seq<Path>,
      after: World)
    requires WellFormed(r) && Follows(w, PlanFor(r, listing, w, probe), after)
    requires AllSettled(Files(r, again, after.disk)) && after.owed == []
    ensures var next := PlanFor(r, again, after, probe);
            && next.steps == FirewallSteps(next.firewall)
            && (forall s :: s in next.switches ==> !s.changed)
  {
    var next := PlanFor(r, again, after, probe);
    SwitchesSettled(r, listing, w, probe);
    NoSwitchSteps(next.switches);
    RecordsSettled(r, listing, w, probe);
    NothingToReload(r, next.files, after.links);
    forall p | HasArtifact(r, p) ensures exists c :: c in next.files && c.path == p {
      ArtifactsListed(r, again, after.disk, p);
    }
    ProcessesSettled(r, listing, w, probe, next.files, after);
  }

  lemma {:induction false} EverythingElseSettles(r: Rendering, listing: seq<Path>, w: World, probe: Probe,
      declaration: Option<string>, luck: Luck, again: seq<Path>)
    requires WellFormed(r) && Lists(listing, w.disk)
    requires AllWent(w, PlanFor(r, listing, w, probe), declaration, luck)
    ensures var next := PlanFor(r, again, Turn(w, PlanFor(r, listing, w, probe), declaration, luck).world, probe);
            && next.steps == FirewallSteps(next.firewall) && next.owed == OwedOf(next.steps)
            && AllSettled(next.files) && forall s :: s in next.switches ==> !s.changed
  {
    var plan := PlanFor(r, listing, w, probe);
    var after := Turn(w, plan, declaration, luck).world;
    TurnFollows(w, plan, declaration, luck);
    assert AllSettled(Files(r, again, after.disk)) by { FilesSettled(r, listing, w, probe, declaration, luck, again); }
    NothingOwedAfter(Attended(r, listing, probe, declaration, luck), w);
    OnlyFirewallLeft(r, listing, w, probe, again, after);
  }

  lemma {:induction false} FirewallAfter(r: Rendering, listing: seq<Path>, w: World, probe: Probe, after: World)
    requires WellFormed(r) && Follows(w, PlanFor(r, listing, w, probe), after)
    ensures var next := Firewall(r.ruleset, r.sets, after, probe);
            && !next.apply
            && (next.elements == [] <==>
                  (probe.sets ==> AllIncreasing(PlanFor(r, listing, w, probe).firewall.elements)))
  {
    TableSettles(w, r, listing, probe);
    FirewallSettled(r, w, after, probe);
  }

  /** After a submitted turn that succeeds, the next plan from the same declaration and
      answers is empty, exactly when each set it wrote was in the order it is read back in,
      or the sets cannot be read at all. */
  lemma {:induction false} SecondPlanIsEmpty(r: Rendering, listing: seq<Path>, w: World, probe: Probe,
      declaration: Option<string>, luck: Luck, again: seq<Path>)
    requires WellFormed(r) && Lists(listing, w.disk)
    requires AllWent(w, PlanFor(r, listing, w, probe), declaration, luck)
    ensures var plan := PlanFor(r, listing, w, probe);
            var next := PlanFor(r, again, Turn(w, plan, declaration, luck).world, probe);
            && next.owed == OwedOf(next.steps)
            && (Empty(next) <==> (probe.sets ==> AllIncreasing(plan.firewall.elements)))
  {
    var plan := PlanFor(r, listing, w, probe);
    TurnFollows(w, plan, declaration, luck);
    EverythingElseSettles(r, listing, w, probe, declaration, luck, again);
    FirewallAfter(r, listing, w, probe, Turn(w, plan, declaration, luck).world);
  }

  /** Addresses kept in the order of the numbers are not in the order of the text: the set
      is then written on every turn, however often it succeeds. */
  lemma {:induction false} NumberOrderNeverSettles(name: string)
    ensures var sets := [SetElements(name, ["9.0.0.1", "10.0.0.1"])];
            var held := map[name := Canonical(sets[0].elements)];
            SetsToWrite(sets, held) == sets && Seeded(held, SetsToWrite(sets, held)) == held
  {
    var sets := [SetElements(name, ["9.0.0.1", "10.0.0.1"])];
    var held := map[name := Canonical(sets[0].elements)];
    assert !StrictlyIncreasing(sets[0].elements) by { assert !TextLe(sets[0].elements[0], sets[0].elements[1]); }
    CanonicalFixedPoint(sets[0].elements);
    assert sets[1..] == [] && SetsToWrite(sets[1..], held) == [];
    assert Seeded(held, sets) == Seeded(held[name := Canonical(sets[0].elements)], []);
  }
}
