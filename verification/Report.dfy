/** What a turn's report says was run, phase by phase. */
module Report {
  import opened Orders
  import opened Host
  import opened Planning
  import opened Turns
  import opened OwingFacts
  import opened PlanFacts
  import opened NothingLost
  import opened Safety
  import opened Idempotence
  import TableFacts

  /** One phase, and what was run in it. */
  datatype Line = Line(phase: int, names: seq<Name>)

  predicate WasRefused(step: Step, refused: set<Name>) { step.action.WriteRecord? && Describe(step) in refused }

  /** The steps the report names: those of the plan up to the one it stopped at, less the
      records that were refused. */
  function Named(steps: seq<Step>, stopped: Option<StepKey>, refused: set<Name>): seq<Step> {
    if steps == [] then []
    else if WasRefused(steps[0], refused) then Named(steps[1..], stopped, refused)
    else if Some(KeyOf(steps[0])) == stopped then [steps[0]]
    else [steps[0]] + Named(steps[1..], stopped, refused)
  }

  function NamesOf(steps: seq<Step>): seq<Name> {
    if steps == [] then [] else [Describe(steps[0])] + NamesOf(steps[1..])
  }

  function Spoken(lines: seq<Line>): seq<Name> {
    if lines == [] then [] else Spoken(lines[..|lines| - 1]) + lines[|lines| - 1].names
  }

  function InPhase(steps: seq<Step>, phase: int): seq<Step> {
    if steps == [] then []
    else InPhase(steps[..|steps| - 1], phase) + if steps[|steps| - 1].phase == phase then [steps[|steps| - 1]] else []
  }

  predicate LineOf(line: Line, steps: seq<Step>) {
    line.names != [] && line.names == NamesOf(InPhase(steps, line.phase))
  }

  /** One line a phase, in order, naming the steps of that phase in the order they were run. */
  ghost predicate Lined(lines: seq<Line>, steps: seq<Step>) {
    && (forall i, j :: 0 <= i < j < |lines| ==> lines[i].phase < lines[j].phase)
    && (forall i :: 0 <= i < |lines| ==> LineOf(lines[i], steps))
    && (forall s :: s in steps ==> exists i :: 0 <= i < |lines| && lines[i].phase == s.phase)
    && (lines == [] <==> steps == [])
    && (steps != [] ==> lines[|lines| - 1].phase == steps[|steps| - 1].phase)
  }

  /** Together the lines name all the steps in that order. */
  ghost predicate Tells(lines: seq<Line>, steps: seq<Step>) {
    Spoken(lines) == NamesOf(steps) && Lined(lines, steps)
  }

  lemma {:induction false} NamesAppend(steps: seq<Step>, step: Step)
    ensures NamesOf(steps + [step]) == NamesOf(steps) + [Describe(step)]
  {
    if steps != [] {
      assert (steps + [step])[1..] == steps[1..] + [step];
      NamesAppend(steps[1..], step);
    } else {
      assert [step][1..] == [];
    }
  }

  lemma {:induction false} PhaseAppend(steps: seq<Step>, step: Step)
    ensures forall phase :: phase != step.phase ==> InPhase(steps + [step], phase) == InPhase(steps, phase)
    ensures NamesOf(InPhase(steps + [step], step.phase)) == NamesOf(InPhase(steps, step.phase)) + [Describe(step)]
    ensures (forall s :: s in steps ==> s.phase != step.phase) ==> InPhase(steps, step.phase) == []
  {
    assert (steps + [step])[..|steps|] == steps;
    NamesAppend(InPhase(steps, step.phase), step);
    NoneInPhase(steps, step.phase);
  }

  lemma {:induction false} NoneInPhase(steps: seq<Step>, phase: int)
    ensures (forall s :: s in steps ==> s.phase != phase) ==> InPhase(steps, phase) == []
  {
    if steps != [] {
      assert steps == steps[..|steps| - 1] + [steps[|steps| - 1]];
      NoneInPhase(steps[..|steps| - 1], phase);
    }
  }

  lemma {:induction false} OtherLine(line: Line, told: seq<Step>, step: Step)
    requires LineOf(line, told) && line.phase != step.phase
    ensures LineOf(line, told + [step])
  {
    PhaseAppend(told, step);
  }

  lemma {:induction false} LongerLine(line: Line, told: seq<Step>, step: Step)
    requires LineOf(line, told) && line.phase == step.phase
    ensures LineOf(Line(line.phase, line.names + [Describe(step)]), told + [step])
  {
    PhaseAppend(told, step);
  }

  lemma {:induction false} FirstOfLine(told: seq<Step>, step: Step)
    requires forall s :: s in told ==> s.phase != step.phase
    ensures LineOf(Line(step.phase, [Describe(step)]), told + [step])
  {
    PhaseAppend(told, step);
    assert NamesOf([]) == [];
  }

  lemma {:induction false} SameLine(lines: seq<Line>, told: seq<Step>, step: Step)
    requires Lined(lines, told) && lines != [] && lines[|lines| - 1].phase == step.phase
    ensures var last := lines[|lines| - 1];
            Lined(lines[..|lines| - 1] + [Line(last.phase, last.names + [Describe(step)])], told + [step])
  {
    var last := lines[|lines| - 1];
    var more := lines[..|lines| - 1] + [Line(last.phase, last.names + [Describe(step)])];
    EachHasALine(lines, more, told, step);
    forall i | 0 <= i < |more| ensures LineOf(more[i], told + [step]) {
      if i < |lines| - 1 { OtherLine(lines[i], told, step); } else { LongerLine(last, told, step); }
    }
  }

  lemma {:induction false} NextLine(lines: seq<Line>, told: seq<Step>, step: Step)
    requires Lined(lines, told) && (told != [] ==> lines[|lines| - 1].phase < step.phase)
    ensures Lined(lines + [Line(step.phase, [Describe(step)])], told + [step])
  {
    var more := lines + [Line(step.phase, [Describe(step)])];
    EachHasALine(lines, more, told, step);
    forall s | s in told ensures s.phase != step.phase {
      var i :| 0 <= i < |lines| && lines[i].phase == s.phase;
    }
    forall i | 0 <= i < |more| ensures LineOf(more[i], told + [step]) {
      if i < |lines| { OtherLine(lines[i], told, step); } else { FirstOfLine(told, step); }
    }
  }

  /** Adds one step to the lines, under its phase. */
  method Tell(lines: seq<Line>, step: Step, ghost told: seq<Step>) returns (more: seq<Line>)
    requires Tells(lines, told) && (told != [] ==> told[|told| - 1].phase <= step.phase)
    ensures Tells(more, told + [step])
  {
    NamesAppend(told, step);
    if lines != [] && lines[|lines| - 1].phase == step.phase {
      var last := lines[|lines| - 1];
      more := lines[..|lines| - 1] + [Line(last.phase, last.names + [Describe(step)])];
      assert more[..|more| - 1] == lines[..|lines| - 1];
      Regrouped(Spoken(lines[..|lines| - 1]), last.names, [Describe(step)]);
      SameLine(lines, told, step);
    } else {
      more := lines + [Line(step.phase, [Describe(step)])];
      assert more[..|more| - 1] == lines;
      NextLine(lines, told, step);
    }
  }

  lemma {:induction false} EachHasALine(lines: seq<Line>, more: seq<Line>, told: seq<Step>, step: Step)
    requires forall s :: s in told ==> exists i :: 0 <= i < |lines| && lines[i].phase == s.phase
    requires |more| >= |lines| && |more| > 0 && more[|more| - 1].phase == step.phase
    requires forall i :: 0 <= i < |lines| ==> more[i].phase == lines[i].phase
    ensures forall s :: s in told + [step] ==> exists i :: 0 <= i < |more| && more[i].phase == s.phase
  {
    forall s | s in told + [step] ensures exists i :: 0 <= i < |more| && more[i].phase == s.phase {
      if s in told {
        var i :| 0 <= i < |lines| && lines[i].phase == s.phase;
        assert more[i].phase == s.phase;
      }
    }
  }

  /** The phases a turn ran and what it ran in each. */
  method PhasesOf(steps: seq<Step>, stopped: Option<StepKey>, refused: set<Name>) returns (lines: seq<Line>)
    requires PhaseSorted(steps)
    ensures Tells(lines, Named(steps, stopped, refused))
  {
    lines := [];
    ghost var told: seq<Step> := [];
    var i := 0;
    while i < |steps|
      invariant 0 <= i <= |steps| && Tells(lines, told)
      invariant told + Named(steps[i..], stopped, refused) == Named(steps, stopped, refused)
      invariant told != [] ==> forall k :: i <= k < |steps| ==> told[|told| - 1].phase <= steps[k].phase
    {
      Regrouped(told, [steps[i]], Named(steps[i + 1..], stopped, refused));
      if !WasRefused(steps[i], refused) {
        lines := Tell(lines, steps[i], told);
        told := told + [steps[i]];
        if Some(KeyOf(steps[i])) == stopped {
          assert told == Named(steps, stopped, refused);
          return;
        }
      }
      i := i + 1;
    }
    assert told == Named(steps, stopped, refused);
  }

  // ----- what it names was tried -----------------------------------------------------

  function Tried(trace: seq<Attempt>): seq<Step> {
    if trace == [] then [] else [trace[0].step] + Tried(trace[1..])
  }

  function Shown(steps: seq<Step>, refused: set<Name>): seq<Step> {
    if steps == [] then [] else (if WasRefused(steps[0], refused) then [] else [steps[0]]) + Shown(steps[1..], refused)
  }

  function StoppedKey(ending: Ending): Option<StepKey> {
    if ending.StoppedAt? then Some(KeyOf(ending.step)) else None
  }

  /** Among the steps, the last is the first of its key. */
  ghost predicate FirstOfItsKey(steps: seq<Step>) {
    steps != [] && forall k :: 0 <= k < |steps| - 1 ==> KeyOf(steps[k]) != KeyOf(steps[|steps| - 1])
  }

  lemma {:induction false} TriedIs(trace: seq<Attempt>)
    ensures |Tried(trace)| == |trace| && forall k :: 0 <= k < |trace| ==> Tried(trace)[k] == trace[k].step
  {
    if trace != [] { TriedIs(trace[1..]); }
  }

  lemma {:induction false} NamedAll(steps: seq<Step>, refused: set<Name>)
    ensures Named(steps, None, refused) == Shown(steps, refused)
  {
    if steps != [] { NamedAll(steps[1..], refused); }
  }

  lemma {:induction false} NamedUpTo(steps: seq<Step>, n: nat, refused: set<Name>)
    requires n < |steps| && !steps[n].action.WriteRecord?
    ensures Named(steps, Some(KeyOf(steps[n])), refused) <= Shown(steps[..n + 1], refused)
    ensures FirstOfItsKey(steps[..n + 1]) ==>
        Named(steps, Some(KeyOf(steps[n])), refused) == Shown(steps[..n + 1], refused)
    decreases n
  {
    var upto := steps[..n + 1];
    assert upto[0] == steps[0] && upto[1..] == steps[1..][..n];
    if n == 0 {
      assert Shown(upto[1..], refused) == [];
    } else {
      NamedUpTo(steps[1..], n - 1, refused);
      if FirstOfItsKey(upto) { FirstOfRest(upto); }
    }
  }

  lemma {:induction false} FirstOfRest(steps: seq<Step>)
    requires |steps| > 1
    ensures FirstOfItsKey(steps) <==> FirstOfItsKey(steps[1..]) && KeyOf(steps[0]) != KeyOf(steps[|steps| - 1])
  {
    assert forall k :: 0 <= k < |steps| - 1 ==> steps[1..][k] == steps[k + 1];
    if FirstOfItsKey(steps[1..]) && KeyOf(steps[0]) != KeyOf(steps[|steps| - 1]) {
      forall k | 0 <= k < |steps| - 1 ensures KeyOf(steps[k]) != KeyOf(steps[|steps| - 1]) {
        if k > 0 { assert steps[1..][k - 1] == steps[k]; }
      }
    }
  }

  lemma {:induction false} KeptHolds(steps: seq<Step>, n: nat, refused: set<Name>)
    requires n < |steps| && !WasRefused(steps[n], refused)
    ensures Shown(steps, refused) != []
  {
    if n > 0 { KeptHolds(steps[1..], n - 1, refused); }
  }

  /** When the key of a step occurs before it, what is named ends there. */
  lemma {:induction false} NamedShort(steps: seq<Step>, n: nat, refused: set<Name>)
    requires n < |steps| && !steps[n].action.WriteRecord? && !FirstOfItsKey(steps[..n + 1])
    ensures |Named(steps, Some(KeyOf(steps[n])), refused)| < |Shown(steps[..n + 1], refused)|
    decreases n
  {
    var upto := steps[..n + 1];
    assert n > 0;
    assert upto[1..] == steps[1..][..n] && upto[n] == steps[n];
    FirstOfRest(upto);
    if KeyOf(steps[0]) == KeyOf(steps[n]) {
      assert !WasRefused(steps[0], refused);
      assert upto[1..][n - 1] == steps[n];
      KeptHolds(upto[1..], n - 1, refused);
    } else {
      NamedShort(steps[1..], n - 1, refused);
    }
  }

  lemma {:induction false} CommitStopsShort(w: World, steps: seq<Step>, i: nat, ends: nat -> Outcome, ran: set<StepKey>,
      refused: seq<Step>)
    requires i <= |steps|
    ensures var c := CommitFrom(w, steps, i, ends, ran, refused); c.stopped.Some? ==>
        !c.stopped.value.action.WriteRecord?
    decreases |steps| - i
  {
    if i < |steps| {
      if ends(i) == Done {
        CommitStopsShort(AfterStep(w, steps[i], ends(i)), steps, i + 1, ends, ran + {KeyOf(steps[i])}, refused);
      } else if steps[i].action.WriteRecord? {
        CommitStopsShort(w, steps, i + 1, ends, ran, refused + [steps[i]]);
      }
    }
  }

  lemma {:induction false} NeverStopsAtRecord(w: World, plan: Plan, declaration: Option<string>, luck: Luck)
    ensures var t := Turn(w, plan, declaration, luck); t.ending.StoppedAt? ==> !t.ending.step.action.WriteRecord?
  {
    if !Empty(plan) {
      var (staged, ok) := StageFrom(w, plan.files, 0, luck.stage);
      CommitStopsShort(Accepting(staged, declaration), plan.steps, 0, luck.commit, {}, []);
    }
  }

  /** Of a turn that got past staging the report names, in order, steps it tried and no other;
      it names all of them but the refused records exactly unless it stopped at a step that had
      run once already under the same name in the same phase. */
  lemma {:induction false} ReportIsTrue(w: World, plan: Plan, declaration: Option<string>, luck: Luck,
      refused: set<Name>)
    requires Turn(w, plan, declaration, luck).ending != StoppedInStaging
    ensures var t := Turn(w, plan, declaration, luck);
            var named, tried := Named(plan.steps, StoppedKey(t.ending), refused), Shown(Tried(t.trace), refused);
            && named <= tried
            && (named == tried <==> (t.ending.StoppedAt? ==> FirstOfItsKey(Tried(t.trace))))
  {
    var t := Turn(w, plan, declaration, luck);
    TurnTrace(w, plan, declaration, luck);
    NeverStopsAtRecord(w, plan, declaration, luck);
    TriedIs(t.trace);
    assert Tried(t.trace) == plan.steps[..|t.trace|];
    if t.ending.StoppedAt? {
      NamedUpTo(plan.steps, |t.trace| - 1, refused);
      if !FirstOfItsKey(Tried(t.trace)) { NamedShort(plan.steps, |t.trace| - 1, refused); }
    } else {
      assert plan.steps[..|plan.steps|] == plan.steps;
      NamedAll(plan.steps, refused);
    }
  }

  // ----- plans whose reports are whole -----------------------------------------------

  /** No step a turn can stop at goes by the key of one before it. */
  ghost predicate NoRepeats(steps: seq<Step>) {
    forall i, j :: 0 <= i < j < |steps| && !steps[j].action.WriteRecord? ==> KeyOf(steps[i]) != KeyOf(steps[j])
  }

  /** The report of a turn, if it has one, names all it tried but the refused records. */
  ghost predicate Whole(w: World, plan: Plan, declaration: Option<string>, luck: Luck, refused: set<Name>) {
    var t := Turn(w, plan, declaration, luck);
    t.ending != StoppedInStaging ==> Named(plan.steps, StoppedKey(t.ending), refused) == Shown(Tried(t.trace), refused)
  }

  function FailsAt(n: nat): Luck { Luck(_ => true, true, (k: nat) => if k == n then Failed else Done, true) }

  lemma {:induction false} StagesAll(w: World, files: seq<FileChange>, i: nat, n: nat)
    requires i <= |files|
    ensures StageFrom(w, files, i, FailsAt(n).stage).1
    decreases |files| - i
  {
    if i < |files| { StagesAll(StageOne(w, files[i]), files, i + 1, n); }
  }

  lemma {:induction false} CommitFailsAt(w: World, steps: seq<Step>, i: nat, n: nat, ran: set<StepKey>,
      refused: seq<Step>)
    requires i <= n < |steps| && !steps[n].action.WriteRecord?
    ensures var c := CommitFrom(w, steps, i, FailsAt(n).commit, ran, refused);
            c.stopped == Some(steps[n]) && |c.trace| == n + 1 - i
    decreases n - i
  {
    if i < n { CommitFailsAt(Effect(w, steps[i].action), steps, i + 1, n, ran + {KeyOf(steps[i])}, refused); }
  }

  /** Any step but a record's can be the one a turn stops at. */
  lemma {:induction false} TurnFailsAt(w: World, plan: Plan, declaration: Option<string>, n: nat)
    requires n < |plan.steps| && !plan.steps[n].action.WriteRecord?
    ensures var t := Turn(w, plan, declaration, FailsAt(n)); t.ending == StoppedAt(plan.steps[n]) && |t.trace| == n + 1
  {
    StagesAll(w, plan.files, 0, n);
    var (staged, ok) := StageFrom(w, plan.files, 0, FailsAt(n).stage);
    CommitFailsAt(Accepting(staged, declaration), plan.steps, 0, n, {}, []);
  }

  /** However a turn of a plan goes its report is whole, exactly when the plan repeats no step
      it can stop at. */
  lemma {:induction false} WholeReports(w: World, plan: Plan, declaration: Option<string>)
    ensures (forall luck, refused :: Whole(w, plan, declaration, luck, refused)) <==> NoRepeats(plan.steps)
  {
    if NoRepeats(plan.steps) {
      forall luck, refused ensures Whole(w, plan, declaration, luck, refused) {
        WholeReport(w, plan, declaration, luck, refused);
      }
    } else {
      var i, j :| 0 <= i < j < |plan.steps| && !plan.steps[j].action.WriteRecord?
        && KeyOf(plan.steps[i]) == KeyOf(plan.steps[j]);
      ShortReport(w, plan, declaration, i, j);
    }
  }

  lemma {:induction false} WholeReport(w: World, plan: Plan, declaration: Option<string>, luck: Luck,
      refused: set<Name>)
    requires NoRepeats(plan.steps)
    ensures Whole(w, plan, declaration, luck, refused)
  {
    var t := Turn(w, plan, declaration, luck);
    if t.ending != StoppedInStaging {
      ReportIsTrue(w, plan, declaration, luck, refused);
      TurnTrace(w, plan, declaration, luck);
      NeverStopsAtRecord(w, plan, declaration, luck);
      TriedIs(t.trace);
    }
  }

  lemma {:induction false} ShortReport(w: World, plan: Plan, declaration: Option<string>, i: nat, j: nat)
    requires i < j < |plan.steps| && !plan.steps[j].action.WriteRecord? && KeyOf(plan.steps[i]) == KeyOf(plan.steps[j])
    ensures !Whole(w, plan, declaration, FailsAt(j), {})
  {
    var t := Turn(w, plan, declaration, FailsAt(j));
    TurnFailsAt(w, plan, declaration, j);
    ReportIsTrue(w, plan, declaration, FailsAt(j), {});
    TurnTrace(w, plan, declaration, FailsAt(j));
    TriedIs(t.trace);
    assert Tried(t.trace)[i] == plan.steps[i] && Tried(t.trace)[j] == plan.steps[j];
  }

  // ----- when a plan repeats nothing -------------------------------------------------

  ghost predicate Apart(a: seq<Step>, b: seq<Step>) {
    forall s, t :: s in a && t in b && !t.action.WriteRecord? ==> KeyOf(s) != KeyOf(t)
  }

  lemma {:induction false} JoinApart(a: seq<Step>, b: seq<Step>)
    requires NoRepeats(a) && NoRepeats(b) && Apart(a, b)
    ensures NoRepeats(a + b)
  {
    var c := a + b;
    forall i, j | 0 <= i < j < |c| && !c[j].action.WriteRecord? ensures KeyOf(c[i]) != KeyOf(c[j]) {
      if i < |a| { assert c[i] in a; }
      if j >= |a| { assert c[j] in b; }
    }
  }

  lemma {:induction false} ApartByPhase(a: seq<Step>, b: seq<Step>, p: int)
    requires (forall s :: s in a ==> s.phase < p) && forall s :: s in b ==> s.phase >= p
    ensures Apart(a, b)
  {}

  lemma {:induction false} OnlyRecords(a: seq<Step>)
    requires forall s :: s in a ==> s.action.WriteRecord?
    ensures NoRepeats(a)
  {
    assert forall j :: 0 <= j < |a| ==> a[j] in a;
  }

  ghost predicate DistinctKeys(wants: seq<Switch>) {
    forall i, j :: 0 <= i < j < |wants| ==> wants[i].key != wants[j].key
  }

  ghost predicate DistinctLinks(links: seq<UdevLink>) {
    forall i, j :: 0 <= i < j < |links| ==> links[i].ifname != links[j].ifname
  }

  /** A rendering that names each switch and each link once. */
  ghost predicate NamesOnce(r: Rendering) { DistinctKeys(r.switches) && DistinctLinks(r.linkFiles) }

  lemma {:induction false} ConsApart(s: Step, rest: seq<Step>)
    requires NoRepeats(rest) && forall t :: t in rest && !t.action.WriteRecord? ==> KeyOf(s) != KeyOf(t)
    ensures NoRepeats([s] + rest)
  {
    JoinApart([s], rest);
  }

  lemma {:induction false} SwitchChangeKeys(wants: seq<Switch>, held: map<string, string>, c: SwitchChange)
    requires c in SwitchChanges(wants, held)
    ensures c.switch_ in wants
  {
    SwitchMembers(wants, held);
  }

  lemma {:induction false} SwitchesRepeatNothing(wants: seq<Switch>, held: map<string, string>)
    requires DistinctKeys(wants)
    ensures NoRepeats(SwitchSteps(SwitchChanges(wants, held)))
  {
    if wants != [] {
      var rest := SwitchChanges(wants[1..], held);
      SwitchesRepeatNothing(wants[1..], held);
      if wants[0].key in held {
        var c := SwitchChange(wants[0], held[wants[0].key] != wants[0].value);
        assert SwitchChanges(wants, held) == [c] + rest && ([c] + rest)[1..] == rest;
        if c.changed {
          var flip := Step(KERNEL, SetSwitch(wants[0].key, wants[0].value), false);
          SwitchKeysFrom(wants[1..], held);
          forall t | t in SwitchSteps(rest) ensures KeyOf(flip) != KeyOf(t) {
            var x :| x in wants[1..] && t.action == SetSwitch(x.key, x.value);
            var k :| 0 <= k < |wants[1..]| && wants[1..][k] == x;
            assert wants[k + 1] == x;
          }
          ConsApart(flip, SwitchSteps(rest));
        } else {
          assert SwitchSteps([c] + rest) == SwitchSteps(rest);
        }
      } else {
        assert SwitchChanges(wants, held) == rest;
      }
    }
  }

  lemma {:induction false} SwitchKeysFrom(wants: seq<Switch>, held: map<string, string>)
    ensures forall t :: t in SwitchSteps(SwitchChanges(wants, held)) ==>
        exists x :: x in wants && t.action == SetSwitch(x.key, x.value)
  {
    SwitchStepMembers(SwitchChanges(wants, held));
    forall t | t in SwitchSteps(SwitchChanges(wants, held))
      ensures exists x :: x in wants && t.action == SetSwitch(x.key, x.value)
    {
      var c :| c in SwitchChanges(wants, held) && c.changed
        && t == Step(KERNEL, SetSwitch(c.switch_.key, c.switch_.value), false);
      SwitchChangeKeys(wants, held, c);
    }
  }

  lemma {:induction false} TriggersRepeatNothing(linkFiles: seq<UdevLink>, files: seq<FileChange>, links: set<string>)
    requires DistinctLinks(linkFiles)
    ensures NoRepeats(TriggerSteps(linkFiles, files, links))
  {
    if linkFiles != [] {
      var rest := TriggerSteps(linkFiles[1..], files, links);
      TriggersRepeatNothing(linkFiles[1..], files, links);
      if WasWritten(ChangeFor(files, linkFiles[0].path)) && linkFiles[0].ifname in links {
        var event := Step(NETWORKD, Run(UdevTrigger(linkFiles[0].ifname)), true);
        TriggerPart(linkFiles[1..], files, links);
        forall t | t in rest ensures KeyOf(event) != KeyOf(t) {
          var i :| 0 <= i < |linkFiles[1..]| && t == Step(NETWORKD, Run(UdevTrigger(linkFiles[1..][i].ifname)), true);
          assert linkFiles[i + 1] == linkFiles[1..][i];
          if KeyOf(event) == KeyOf(t) { TriggerNames(linkFiles[0].ifname, linkFiles[i + 1].ifname); }
        }
        ConsApart(event, rest);
      } else {
        assert TriggerSteps(linkFiles, files, links) == rest;
      }
    }
  }

  lemma {:induction false} ReadersRepeatNothing(r: Rendering, files: seq<FileChange>, links: set<string>)
    requires DistinctLinks(r.linkFiles)
    ensures NoRepeats(NetworkdSteps(r, files, links))
  {
    var networkd: seq<Step> := if ChangedFor(files, Networkd) then [ReloadStep(NETWORKD, Networkd)] else [];
    var triggers := TriggerSteps(r.linkFiles, files, links);
    TriggersRepeatNothing(r.linkFiles, files, links);
    TriggerPart(r.linkFiles, files, links);
    ConsApart(ReloadStep(NETWORKD, Udev), triggers);
    if ChangedFor(files, Udev) { JoinApart(networkd, [ReloadStep(NETWORKD, Udev)] + triggers); }
  }

  lemma {:induction false} ServiceKeys(s: Service)
    ensures forall t :: t in ServiceSteps(s) ==> IsService(t) && LastArg(t.action.command.args) == s.unit
    ensures NoRepeats(ServiceSteps(s))
  {}

  /** Steps that are each for one of the units. */
  ghost predicate ForUnits(steps: seq<Step>, units: set<string>) {
    forall t :: t in steps ==> IsService(t) && LastArg(t.action.command.args) in units
  }

  lemma {:induction false} UnitsApart(a: seq<Step>, b: seq<Step>, units: set<string>, others: set<string>)
    requires ForUnits(a, units) && ForUnits(b, others) && units !! others
    ensures Apart(a, b)
  {}

  lemma {:induction false} SessionsRepeatNothing(names: seq<string>, r: Rendering, files: seq<FileChange>, w: World,
      probe: Probe)
    requires forall i, j :: 0 <= i < j < |names| ==> names[i] != names[j]
    ensures NoRepeats(SessionSteps(names, r, files, w, probe))
    ensures ForUnits(SessionSteps(names, r, files, w, probe), set n | n in names :: PppoeUnit(n))
  {
    if names != [] {
      var here := ServiceSteps(SessionService(names[0], r, files, w, probe));
      var rest := SessionSteps(names[1..], r, files, w, probe);
      SessionsRepeatNothing(names[1..], r, files, w, probe);
      ServiceKeys(SessionService(names[0], r, files, w, probe));
      assert names == [names[0]] + names[1..];
      OtherUnits(names);
      UnitsApart(here, rest, {PppoeUnit(names[0])}, set n | n in names[1..] :: PppoeUnit(n));
      JoinApart(here, rest);
    }
  }

  lemma {:induction false} OtherUnits(names: seq<string>)
    requires names != [] && forall i, j :: 0 <= i < j < |names| ==> names[i] != names[j]
    ensures PppoeUnit(names[0]) !in (set n | n in names[1..] :: PppoeUnit(n))
  {
    forall n | n in names[1..] ensures PppoeUnit(n) != PppoeUnit(names[0]) {
      PppoeUnitsDiffer(n, names[0]);
      var k :| 0 <= k < |names[1..]| && names[1..][k] == n;
      assert names[k + 1] == n;
    }
  }

  lemma {:induction false} ProcessesRepeatNothing(r: Rendering, files: seq<FileChange>, w: World, probe: Probe)
    ensures NoRepeats(ProcessSteps(r, files, w, probe))
  {
    var names := SessionNames(r, files);
    CanonicalIncreasing(r.sessions + NamesIn(files, PeersDir) + NamesIn(files, CredentialsDir));
    SessionsRepeatNothing(names, r, files, w, probe);
    ServiceKeys(DnsmasqService(r, files, w, probe));
    forall n | n in names ensures PppoeUnit(n) != DNSMASQ_UNIT { PppoeUnitsDiffer(n, n); }
    var sessions, dnsmasq := SessionSteps(names, r, files, w, probe), ServiceSteps(DnsmasqService(r, files, w, probe));
    UnitsApart(sessions, dnsmasq, set n | n in names :: PppoeUnit(n), {DNSMASQ_UNIT});
    JoinApart(sessions, dnsmasq);
  }

  lemma {:induction false} RemovalsRepeatNothing(files: seq<FileChange>)
    requires OnePath(files)
    ensures NoRepeats(RemovalSteps(files))
  {
    if files != [] {
      RemovalsRepeatNothing(files[1..]);
      RemovalPart(files[1..]);
      var step := Step(PROCESSES, RemoveFile(files[0].path), false);
      forall t | t in RemovalSteps(files[1..]) ensures KeyOf(step) != KeyOf(t) {
        var c :| c in files[1..] && c.deferred && c.kind == Remove && t == Step(PROCESSES, RemoveFile(c.path), false);
        var k :| 0 <= k < |files[1..]| && files[1..][k] == c;
        assert files[k + 1] == c;
      }
      ConsApart(step, RemovalSteps(files[1..]));
    }
  }

  lemma {:induction false} LateRepeatsNothing(files: seq<FileChange>)
    requires OnePath(files)
    ensures NoRepeats(DeferredReclaim(files))
  {
    RemovalsRepeatNothing(files);
    RemovalPart(files);
    JoinApart(RemovalSteps(files), [ReloadStep(PROCESSES, Systemd)]);
  }

  lemma {:induction false} LateApart(processes: seq<Step>, files: seq<FileChange>)
    requires forall t :: t in processes ==> IsService(t)
    ensures Apart(processes, DeferredReclaim(files))
  {
    RemovalPart(files);
  }

  lemma {:induction false} FiveApart(a: seq<Step>, b: seq<Step>, c: seq<Step>, d: seq<Step>, e: seq<Step>)
    requires NoRepeats(a) && NoRepeats(b) && NoRepeats(c) && NoRepeats(d) && NoRepeats(e)
    requires AllIn(a, FIREWALL) && AllIn(b, KERNEL) && AllIn(c, NETWORKD) && AllIn(d, PROCESS_CONFIG)
        && AllIn(e, PROCESSES)
    ensures NoRepeats(a + b + c + d + e)
  {
    ApartByPhase(a, b, KERNEL);
    JoinApart(a, b);
    ApartByPhase(a + b, c, NETWORKD);
    JoinApart(a + b, c);
    ApartByPhase(a + b + c, d, PROCESS_CONFIG);
    JoinApart(a + b + c, d);
    ApartByPhase(a + b + c + d, e, PROCESSES);
    JoinApart(a + b + c + d, e);
  }

  lemma {:induction false} FirewallRepeatsNothing(f: FirewallChange)
    ensures NoRepeats(FirewallSteps(f)) && AllIn(FirewallSteps(f), FIREWALL)
  {}

  lemma {:induction false} UnitReloadRepeatsNothing(files: seq<FileChange>)
    ensures NoRepeats(UnitReload(files)) && AllIn(UnitReload(files), PROCESS_CONFIG)
  {}

  lemma {:induction false} EarlyRepeatsNothing(r: Rendering, files: seq<FileChange>, f: FirewallChange, w: World,
      probe: Probe)
    requires NamesOnce(r)
    ensures NoRepeats(EarlySteps(r, files, SwitchChanges(r.switches, w.switches), f, w, probe))
  {
    var switches := SwitchChanges(r.switches, w.switches);
    FirewallRepeatsNothing(f);
    UnitReloadRepeatsNothing(files);
    SwitchesRepeatNothing(r.switches, w.switches);
    assert AllIn(SwitchSteps(switches), KERNEL) by { SwitchPart(switches); }
    ReadersRepeatNothing(r, files, w.links);
    assert AllIn(NetworkdSteps(r, files, w.links), NETWORKD) by { NetworkdPart(r, files, w.links); }
    ProcessesRepeatNothing(r, files, w, probe);
    assert AllIn(ProcessSteps(r, files, w, probe), PROCESSES) by { ProcessPart(r, files, w, probe); }
    FiveApart(FirewallSteps(f), SwitchSteps(switches), NetworkdSteps(r, files, w.links), UnitReload(files),
        ProcessSteps(r, files, w, probe));
  }

  lemma {:induction false} EarlyApartLate(a: seq<Step>, processes: seq<Step>, late: seq<Step>)
    requires (forall s :: s in a ==> s.phase < PROCESSES) && (forall s :: s in late ==> s.phase == PROCESSES)
    requires Apart(processes, late)
    ensures Apart(a + processes, late)
  {}

  /** What the comparison asks for names no step twice. */
  lemma {:induction false} NativeRepeatsNothing(r: Rendering, files: seq<FileChange>, f: FirewallChange,
      records: seq<RecordChange>, w: World, probe: Probe)
    requires NamesOnce(r) && OnePath(files)
    ensures NoRepeats(StepsOf(r, files, SwitchChanges(r.switches, w.switches), f, records, w, probe))
  {
    var switches := SwitchChanges(r.switches, w.switches);
    var processes, late := ProcessSteps(r, files, w, probe), DeferredReclaim(files);
    var first := FirewallSteps(f) + SwitchSteps(switches) + NetworkdSteps(r, files, w.links) + UnitReload(files);
    EarlyRepeatsNothing(r, files, f, w, probe);
    LateRepeatsNothing(files);
    ProcessPart(r, files, w, probe);
    LateApart(processes, files);
    LatePart(files);
    BeforeProcesses(r, files, switches, f, w);
    EarlyApartLate(first, processes, late);
    JoinApart(first + processes, late);
    RecordPart(records);
    OnlyRecords(RecordSteps(records));
    JoinApart(first + processes + late, RecordSteps(records));
  }

  lemma {:induction false} BeforeProcesses(r: Rendering, files: seq<FileChange>, switches: seq<SwitchChange>,
      f: FirewallChange, w: World)
    ensures forall s ::
        s in FirewallSteps(f) + SwitchSteps(switches) + NetworkdSteps(r, files, w.links) + UnitReload(files) ==>
          s.phase < PROCESSES
  {
    SwitchPart(switches);
    NetworkdPart(r, files, w.links);
  }

  // ----- what earlier turns left, and what is held back -------------------------------

  lemma {:induction false} InsertRepeatsNothing(steps: seq<Step>, step: Step)
    requires NoRepeats(steps) && KeyOf(step) !in KeysOf(steps) && !step.action.WriteRecord?
    ensures NoRepeats(InsertStep(steps, step))
  {
    if steps == [] {
    } else if steps[0].phase > step.phase {
      ConsApart(step, steps);
    } else {
      var rest := InsertStep(steps[1..], step);
      assert steps == [steps[0]] + steps[1..];
      TailRepeatsNothing(steps);
      InsertRepeatsNothing(steps[1..], step);
      InsertMembers(steps[1..], step);
      ConsApart(steps[0], rest);
    }
  }

  lemma {:induction false} TailRepeatsNothing(steps: seq<Step>)
    requires steps != [] && NoRepeats(steps)
    ensures NoRepeats(steps[1..])
    ensures forall t :: t in steps[1..] && !t.action.WriteRecord? ==> KeyOf(steps[0]) != KeyOf(t)
  {
    forall t | t in steps[1..] && !t.action.WriteRecord? ensures KeyOf(steps[0]) != KeyOf(t) {
      var k :| 0 <= k < |steps[1..]| && steps[1..][k] == t;
      assert steps[k + 1] == t;
    }
  }

  lemma {:induction false} OwedRepeatsNothing(at: Owing, owed: seq<OwedStep>, links: set<string>)
    requires NoRepeats(at.steps)
    ensures NoRepeats(AddOwed(at, owed, links).steps)
    decreases |owed|
  {
    if owed != [] {
      if Skipped(owed[0], at.steps, links) {
        OwedRepeatsNothing(at, owed[1..], links);
      } else {
        var step := StepFor(owed[0]);
        InsertRepeatsNothing(at.steps, step);
        OwedRepeatsNothing(Owing(InsertStep(at.steps, step), at.owed + [owed[0]]), owed[1..], links);
      }
    }
  }

  lemma {:induction false} WithoutOne(a: seq<Step>, s: Step, b: seq<Step>)
    requires NoRepeats(a + [s] + b)
    ensures NoRepeats(a + b)
  {
    var all, less := a + [s] + b, a + b;
    forall i, j | 0 <= i < j < |less| && !less[j].action.WriteRecord? ensures KeyOf(less[i]) != KeyOf(less[j]) {
      var x, y := if i < |a| then i else i + 1, if j < |a| then j else j + 1;
      assert all[x] == less[i] && all[y] == less[j];
    }
  }

  lemma {:induction false} FilterRepeatsNothing(steps: seq<Step>, i: nat, now: int, at: Filtered)
    requires i <= |steps| && NoRepeats(at.kept + steps[i..])
    ensures NoRepeats(Filter(steps, i, now, at).kept)
    decreases |steps| - i
  {
    if i == |steps| {
      assert at.kept + steps[i..] == at.kept;
    } else {
      var step, name := steps[i], Describe(steps[i]);
      assert at.kept + steps[i..] == at.kept + [step] + steps[i + 1..];
      if UnattendedForbidden(step) {
        WithoutOne(at.kept, step, steps[i + 1..]);
        FilterRepeatsNothing(steps, i + 1, now, at.(dropped := at.dropped + [Forbidden(step)]));
      } else if Held(at.retries, name, now) {
        WithoutOne(at.kept, step, steps[i + 1..]);
        FilterRepeatsNothing(steps, i + 1, now,
            at.(dropped := at.dropped + [HeldBack(step)], present := at.present + {name}));
      } else {
        FilterRepeatsNothing(steps, i + 1, now,
          Filtered(at.kept + [step], at.dropped, at.retries[name := NextRetry(at.retries, name, now)],
              at.present + {name}));
      }
    }
  }

  /** Every turn's plan repeats nothing, and so its report is whole however it goes, when the
      rendering names each switch, each link and each artifact once. */
  lemma {:induction false} NamedOnceIsWhole(e: Event, w: World)
    requires e.Attended? || e.Unattended?
    requires NamesOnce(e.rendering) && DistinctPaths(e.rendering.artifacts) && DistinctListing(e.listing)
    ensures NoRepeats(PlanOf(e, w).steps)
    ensures forall luck, refused :: Whole(w, PlanOf(e, w), DeclarationOf(e), luck, refused)
  {
    FullRepeatsNothing(e.rendering, e.listing, w, e.probe);
    if e.Unattended? {
      var full := PlanFor(e.rendering, e.listing, w, e.probe);
      assert [] + full.steps[0..] == full.steps;
      FilterRepeatsNothing(full.steps, 0, e.now, Filtered([], [], e.retries, {}));
    }
    WholeReports(w, PlanOf(e, w), DeclarationOf(e));
  }

  lemma {:induction false} FullRepeatsNothing(r: Rendering, listing: seq<Path>, w: World, probe: Probe)
    requires NamesOnce(r) && DistinctPaths(r.artifacts) && DistinctListing(listing)
    ensures NoRepeats(PlanFor(r, listing, w, probe).steps)
  {
    var p := PlanFor(r, listing, w, probe);
    var steps := StepsOf(r, p.files, p.switches, p.firewall, p.records, w, probe);
    FilesOnceEach(r, listing, w.disk);
    NativeRepeatsNothing(r, p.files, p.firewall, p.records, w, probe);
    OwedRepeatsNothing(Owing(steps, OwedOf(steps)), w.owed, w.links);
  }

  /** Two interfaces of one link ask for one switch twice: when the second setting fails, the
      report names the first and not the one the turn stopped at. */
  lemma {:induction false} OneSwitchTwice(ruleset: Ruleset, key: string)
    ensures var r := TableFacts.Bare(ruleset, [Switch(key, "0"), Switch(key, "0")]);
            var w := TableFacts.Plain(ruleset, map[key := "1"]);
            var plan := PlanFor(r, [], w, TableFacts.ASKED);
            var t := Turn(w, plan, None, FailsAt(1));
            var flip := Step(KERNEL, SetSwitch(key, "0"), false);
            && !NamesOnce(r) && t.ending == StoppedAt(flip) && Tried(t.trace) == [flip, flip]
            && Named(plan.steps, StoppedKey(t.ending), {}) == [flip] && !Whole(w, plan, None, FailsAt(1), {})
  {
    var wants := [Switch(key, "0"), Switch(key, "0")];
    var r, w := TableFacts.Bare(ruleset, wants), TableFacts.Plain(ruleset, map[key := "1"]);
    var plan, flip := PlanFor(r, [], w, TableFacts.ASKED), Step(KERNEL, SetSwitch(key, "0"), false);
    TableFacts.NothingButTheTable(w, ruleset, wants);
    TwoChanges(wants, w.switches);
    TwiceTried(w, plan, flip);
  }

  lemma {:induction false} TwiceTried(w: World, plan: Plan, flip: Step)
    requires plan.steps == [flip, flip] && flip.action.SetSwitch?
    ensures var t := Turn(w, plan, None, FailsAt(1));
            && t.ending == StoppedAt(flip) && Tried(t.trace) == [flip, flip]
            && Named(plan.steps, StoppedKey(t.ending), {}) == [flip] && !Whole(w, plan, None, FailsAt(1), {})
  {
    TurnFailsAt(w, plan, None, 1);
    TurnTrace(w, plan, None, FailsAt(1));
    TriedIs(Turn(w, plan, None, FailsAt(1)).trace);
    ShortReport(w, plan, None, 0, 1);
  }

  lemma {:induction false} TwoChanges(wants: seq<Switch>, held: map<string, string>)
    requires |wants| == 2 && wants[0] == wants[1] && wants[0].key in held && held[wants[0].key] != wants[0].value
    ensures var flip := Step(KERNEL, SetSwitch(wants[0].key, wants[0].value), false);
            SwitchSteps(SwitchChanges(wants, held)) == [flip, flip]
  {
    var c := SwitchChange(wants[0], true);
    assert wants[1..] == [wants[1]] && wants[1..][1..] == [];
    assert SwitchChanges(wants[1..], held) == [c];
    assert SwitchChanges(wants, held) == [c, c] && [c, c][1..] == [c] && [c][1..] == [];
    assert SwitchSteps([c]) == [Step(KERNEL, SetSwitch(wants[0].key, wants[0].value), false)];
  }
}
