/** The line an unattended turn does not cross, and how often it tries one thing. */
module Unattended {
  import opened Host
  import opened Planning
  import opened Turns
  import opened NothingLost
  import opened Safety

  // ----- the line --------------------------------------------------------------------

  function StepOf(f: Failure): Step { f.step }

  /** The steps kept and the steps dropped, each in order, are the steps of the plan. */
  ghost predicate Interleaves(steps: seq<Step>, kept: seq<Step>, dropped: seq<Failure>)
    decreases |steps|
  {
    if steps == [] then kept == [] && dropped == []
    else
      || (kept != [] && kept[0] == steps[0] && Interleaves(steps[1..], kept[1..], dropped))
      || (dropped != [] && StepOf(dropped[0]) == steps[0] && Interleaves(steps[1..], kept, dropped[1..]))
  }

  lemma {:induction false} FilterInterleaves(steps: seq<Step>, i: nat, now: int, at: Filtered)
    requires i <= |steps|
    ensures var f := Filter(steps, i, now, at);
            && at.kept <= f.kept && at.dropped <= f.dropped
            && Interleaves(steps[i..], f.kept[|at.kept|..], f.dropped[|at.dropped|..])
    decreases |steps| - i
  {
    if i < |steps| {
      var step, name := steps[i], Describe(steps[i]);
      assert steps[i..][1..] == steps[i + 1..];
      var next := if UnattendedForbidden(step) then at.(dropped := at.dropped + [Forbidden(step)])
                  else if Held(at.retries, name, now) then
                    at.(dropped := at.dropped + [HeldBack(step)], present := at.present + {name})
                  else
                    Filtered(at.kept + [step], at.dropped, at.retries[name := NextRetry(at.retries, name, now)],
                        at.present + {name});
      FilterInterleaves(steps, i + 1, now, next);
      var f := Filter(steps, i, now, at);
      assert f == Filter(steps, i + 1, now, next);
      if |next.kept| > |at.kept| {
        assert f.kept[|at.kept|..][1..] == f.kept[|next.kept|..];
        assert f.kept[|at.kept|] == next.kept[|at.kept|] == step;
      } else {
        assert f.dropped[|at.dropped|..][1..] == f.dropped[|next.dropped|..];
        assert f.dropped[|at.dropped|] == next.dropped[|at.dropped|];
      }
    }
  }

  /** An unattended plan is the full plan, less what it names as failing. */
  lemma {:induction false} PlanIsSplit(plan: Plan, retries: map<Name, Retry>, now: int)
    requires plan.failing == []
    ensures var u := UnattendedPlan(plan, retries, now).0; Interleaves(plan.steps, u.steps, u.failing)
  {
    FilterInterleaves(plan.steps, 0, now, Filtered([], [], retries, {}));
    var f := Filter(plan.steps, 0, now, Filtered([], [], retries, {}));
    assert plan.steps[0..] == plan.steps && f.kept[0..] == f.kept && f.dropped[0..] == f.dropped;
    assert plan.failing + f.dropped == f.dropped;
  }

  lemma {:induction false} StageKeepsFiles(w: World, files: seq<FileChange>, i: nat, ok: nat -> bool)
    requires i <= |files| && forall c :: c in files && c.kind == Remove ==> c.deferred
    ensures w.disk.Keys <= StageFrom(w, files, i, ok).0.disk.Keys
    decreases |files| - i
  {
    if i < |files| && !(Touches(files[i]) && !ok(i)) { StageKeepsFiles(StageOne(w, files[i]), files, i + 1, ok); }
  }

  lemma {:induction false} CommitKeepsFiles(w: World, steps: seq<Step>, i: nat, ends: nat -> Outcome, ran: set<StepKey>,
      refused: seq<Step>)
    requires i <= |steps| && forall s :: s in steps ==> !s.action.RemoveFile?
    ensures CommitFrom(w, steps, i, ends, ran, refused).world.disk == w.disk
    decreases |steps| - i
  {
    if i < |steps| {
      if ends(i) == Done {
        CommitKeepsFiles(Effect(w, steps[i].action), steps, i + 1, ends, ran + {KeyOf(steps[i])}, refused);
      } else if steps[i].action.WriteRecord? {
        CommitKeepsFiles(w, steps, i + 1, ends, ran, refused + [steps[i]]);
      }
    }
  }

  lemma {:induction false} DeferredAll(files: seq<FileChange>)
    ensures forall c :: c in Deferring(files) && c.kind == Remove ==> c.deferred
  {}

  /** A plan that takes no file away at once and none by a step leaves every file there. */
  lemma {:induction false} TurnKeepsFiles(w: World, plan: Plan, luck: Luck)
    requires forall c :: c in plan.files && c.kind == Remove ==> c.deferred
    requires forall s :: s in plan.steps ==> !s.action.RemoveFile?
    ensures w.disk.Keys <= Turn(w, plan, None, luck).world.disk.Keys
  {
    if !Empty(plan) {
      StageKeepsFiles(w, plan.files, 0, luck.stage);
      var (staged, ok) := StageFrom(w, plan.files, 0, luck.stage);
      CommitKeepsFiles(Accepting(staged, None), plan.steps, 0, luck.commit, {}, []);
    }
  }

  lemma {:induction false} AttemptsAreSteps(w: World, plan: Plan, luck: Luck)
    ensures var t := Turn(w, plan, None, luck); forall k :: 0 <= k < |t.trace| ==> t.trace[k].step in plan.steps
  {
    TurnTrace(w, plan, None, luck);
  }

  lemma {:induction false} AllowedOnly(e: Event, w: World)
    requires e.Unattended?
    ensures var full := PlanFor(e.rendering, e.listing, w, e.probe);
            && (forall s :: s in PlanOf(e, w).steps ==> s in full.steps && !UnattendedForbidden(s))
            && (forall c :: c in PlanOf(e, w).files && c.kind == Remove ==> c.deferred)
  {
    var full := PlanFor(e.rendering, e.listing, w, e.probe);
    FilterKeeps(full.steps, 0, e.now, Filtered([], [], e.retries, {}));
    DeferredAll(full.files);
  }

  /** An unattended turn takes no file away, tries nothing that restarts, disables or takes
      away, and tries only steps of the full plan: whatever the plan and the owed file hold. */
  lemma {:induction false} LineIsKept(e: Event, w: World)
    requires e.Unattended?
    ensures var t := ResultOf(e, w);
            && w.disk.Keys <= t.world.disk.Keys
            && forall k :: 0 <= k < |t.trace| ==>
                 !UnattendedForbidden(t.trace[k].step)
                 && t.trace[k].step in PlanFor(e.rendering, e.listing, w, e.probe).steps
  {
    AllowedOnly(e, w);
    TurnKeepsFiles(w, PlanOf(e, w), e.luck);
    AttemptsAreSteps(w, PlanOf(e, w), e.luck);
  }

  /** Whatever it dropped or held back keeps an unattended turn from reporting converged;
      what it reports converged or waiting, it has tried in full. */
  lemma {:induction false} DroppedIsFailing(e: Event, w: World)
    requires e.Unattended?
    ensures var full := PlanFor(e.rendering, e.listing, w, e.probe);
            StateOf(PlanOf(e, w), ResultOf(e, w)) != Failing ==> PlanOf(e, w).steps == full.steps
    ensures forall s :: s in PlanFor(e.rendering, e.listing, w, e.probe).steps && UnattendedForbidden(s) ==>
              StateOf(PlanOf(e, w), ResultOf(e, w)) == Failing
  {
    var full := PlanFor(e.rendering, e.listing, w, e.probe);
    var at := Filtered([], [], e.retries, {});
    DroppedGrows(full.steps, 0, e.now, at);
    FilterKeeps(full.steps, 0, e.now, at);
    assert [] + full.steps[0..] == full.steps;
    if StateOf(PlanOf(e, w), ResultOf(e, w)) != Failing {
      SucceededRan(w, PlanOf(e, w), None, e.luck);
    }
  }

  lemma {:induction false} CleanCommit(w: World, steps: seq<Step>, i: nat, ends: nat -> Outcome, ran: set<StepKey>,
      refused: seq<Step>)
    requires i <= |steps|
    ensures var c := CommitFrom(w, steps, i, ends, ran, refused);
            && |refused| <= |c.refused|
            && ((c.stopped.None? && |c.refused| == |refused|) <==>
                  |c.trace| == |steps| - i && forall k :: 0 <= k < |c.trace| ==> c.trace[k].ok)
    decreases |steps| - i
  {
    if i < |steps| {
      var s, c := steps[i], CommitFrom(w, steps, i, ends, ran, refused);
      if ends(i) == Done {
        CleanCommit(Effect(w, s.action), steps, i + 1, ends, ran + {KeyOf(s)}, refused);
        var rest := CommitFrom(Effect(w, s.action), steps, i + 1, ends, ran + {KeyOf(s)}, refused);
        assert c.trace == [Attempt(s, w, true)] + rest.trace;
        assert forall k :: 0 <= k < |rest.trace| ==> rest.trace[k] == c.trace[k + 1];
      } else {
        if s.action.WriteRecord? { CleanCommit(w, steps, i + 1, ends, ran, refused + [s]); }
        assert !c.trace[0].ok;
      }
    }
  }

  ghost predicate RanAll(t: TurnResult, steps: seq<Step>) {
    t.ending == Succeeded && |t.trace| == |steps|
    && forall k :: 0 <= k < |steps| ==> t.trace[k].step == steps[k] && t.trace[k].ok
  }

  lemma {:induction false} NoneFailing(w: World, plan: Plan, declaration: Option<string>, luck: Luck)
    ensures var t := Turn(w, plan, declaration, luck);
            && |t.trace| <= |plan.steps|
            && (t.ending == Succeeded && t.failing == [] <==> plan.failing == [] && RanAll(t, plan.steps))
  {
    TurnTrace(w, plan, declaration, luck);
    if !Empty(plan) {
      var (staged, ok) := StageFrom(w, plan.files, 0, luck.stage);
      if ok && CanAccept(staged, declaration, luck) {
        var c := CommitFrom(Accepting(staged, declaration), plan.steps, 0, luck.commit, {}, []);
        CleanCommit(Accepting(staged, declaration), plan.steps, 0, luck.commit, {}, []);
        RefusalsLength(c.refused);
      }
    }
  }

  /** What a turn reports, attended or not. It fails unless it got through every step the
      comparison and earlier turns ask for, records included, and none was held back or
      refused; and of the others exactly those wait whose declaration waits for something. */
  lemma {:induction false} ReportedExactly(e: Event, w: World)
    requires e.Attended? || e.Unattended?
    ensures var state, full := StateOf(PlanOf(e, w), ResultOf(e, w)), PlanFor(e.rendering, e.listing, w, e.probe);
            && (state != Failing <==> RanAll(ResultOf(e, w), full.steps))
            && (state == Waiting <==> RanAll(ResultOf(e, w), full.steps) && e.rendering.waiting != [])
  {
    NoneFailing(w, PlanOf(e, w), DeclarationOf(e), e.luck);
    WholePlan(e, w);
    RanWhole(ResultOf(e, w), PlanOf(e, w).steps, PlanFor(e.rendering, e.listing, w, e.probe).steps);
  }

  /** Nothing fails of a plan exactly if it has all the steps there are. */
  lemma {:induction false} WholePlan(e: Event, w: World)
    requires e.Attended? || e.Unattended?
    ensures var full, plan := PlanFor(e.rendering, e.listing, w, e.probe), PlanOf(e, w);
            && plan.waiting == e.rendering.waiting && |plan.steps| <= |full.steps|
            && (plan.failing == [] <==> |plan.steps| == |full.steps|)
            && (plan.failing == [] ==> plan.steps == full.steps)
  {
    var full := PlanFor(e.rendering, e.listing, w, e.probe);
    if e.Unattended? {
      DroppedGrows(full.steps, 0, e.now, Filtered([], [], e.retries, {}));
      assert [] + full.steps[0..] == full.steps;
    }
  }

  lemma {:induction false} RanWhole(t: TurnResult, steps: seq<Step>, full: seq<Step>)
    requires |t.trace| <= |steps| <= |full| && (|steps| == |full| ==> steps == full)
    ensures |steps| == |full| && RanAll(t, steps) <==> RanAll(t, full)
  {}

  // ----- the backoff, key by key -----------------------------------------------------

  ghost predicate Present(steps: seq<Step>, name: Name) {
    exists s :: s in steps && !UnattendedForbidden(s) && Describe(s) == name
  }

  function Lookup(retries: map<Name, Retry>, name: Name): Option<Retry> {
    if name in retries then Some(retries[name]) else None
  }

  /** What becomes of one key's retry in a turn that asks for it. */
  function KeyNext(r: Option<Retry>, now: int): Retry {
    if r.Some? && now < r.value.next then r.value
    else var attempts := (if r.Some? then r.value.attempts else 0) + 1; Retry(attempts, now + Delay(attempts))
  }

  predicate Tried(r: Option<Retry>, now: int) { r.None? || r.value.next <= now }

  lemma {:induction false} DelayBounds(attempts: nat)
    requires attempts > 0
    ensures SECOND <= Delay(attempts) <= 256 * SECOND
    ensures Delay(attempts) == SECOND * PowerOfTwo(Least(attempts - 1, 8))
  {
    PowerGrows(Least(attempts - 1, 8), 8);
    assert PowerOfTwo(8) == 256;
  }

  lemma {:induction false} PowerGrows(m: nat, n: nat)
    requires m <= n
    ensures 1 <= PowerOfTwo(m) <= PowerOfTwo(n)
  {
    if m < n { PowerGrows(m, n - 1); } else if m > 0 { PowerGrows(m - 1, m - 1); }
  }

  function FilterOne(step: Step, now: int, at: Filtered): Filtered {
    var name := Describe(step);
    if UnattendedForbidden(step) then at.(dropped := at.dropped + [Forbidden(step)])
    else if Held(at.retries, name, now)
    then at.(dropped := at.dropped + [HeldBack(step)], present := at.present + {name})
    else Filtered(at.kept + [step], at.dropped, at.retries[name := NextRetry(at.retries, name, now)],
        at.present + {name})
  }

  predicate KeptFrom(f: Filtered, from: nat, name: Name) {
    exists k :: from <= k < |f.kept| && Describe(f.kept[k]) == name
  }

  /** How one key stands in f when it was asked for, or not, since `at`. */
  ghost predicate OnKey(at: Filtered, f: Filtered, asked: bool, name: Name, now: int) {
    && at.kept <= f.kept
    && (name in f.present <==> name in at.present || asked)
    && Lookup(f.retries, name) ==
         (if asked then Some(KeyNext(Lookup(at.retries, name), now)) else Lookup(at.retries, name))
    && (KeptFrom(f, |at.kept|, name) <==> asked && Tried(Lookup(at.retries, name), now))
  }

  lemma {:induction false} OneOnKey(step: Step, now: int, at: Filtered, name: Name)
    ensures OnKey(at, FilterOne(step, now, at), !UnattendedForbidden(step) && Describe(step) == name, name, now)
  {
    var f := FilterOne(step, now, at);
    if |f.kept| > |at.kept| { assert f.kept[|at.kept|] == step; }
  }

  lemma {:induction false} JoinOnKey(a: Filtered, b: Filtered, c: Filtered, p: bool, q: bool, name: Name, now: int)
    requires OnKey(a, b, p, name, now) && OnKey(b, c, q, name, now)
    ensures OnKey(a, c, p || q, name, now)
  {
    if p && Tried(Lookup(a.retries, name), now) {
      DelayBounds(KeyNext(Lookup(a.retries, name), now).attempts);
      var k :| |a.kept| <= k < |b.kept| && Describe(b.kept[k]) == name;
      assert c.kept[k] == b.kept[k];
    }
    if KeptFrom(c, |a.kept|, name) {
      var k :| |a.kept| <= k < |c.kept| && Describe(c.kept[k]) == name;
      if k < |b.kept| { assert b.kept[k] == c.kept[k]; assert KeptFrom(b, |a.kept|, name); }
    }
  }

  lemma {:induction false} FilterOnKey(steps: seq<Step>, i: nat, now: int, at: Filtered, name: Name)
    requires i <= |steps|
    ensures OnKey(at, Filter(steps, i, now, at), Present(steps[i..], name), name, now)
    decreases |steps| - i
  {
    if i < |steps| {
      var step, next := steps[i], FilterOne(steps[i], now, at);
      var asked := !UnattendedForbidden(step) && Describe(step) == name;
      assert steps[i..] == [step] + steps[i + 1..];
      assert Present(steps[i..], name) <==> asked || Present(steps[i + 1..], name) by {
        if Present(steps[i + 1..], name) {
          var s :| s in steps[i + 1..] && !UnattendedForbidden(s) && Describe(s) == name;
          assert s in steps[i..];
        }
      }
      OneOnKey(step, now, at, name);
      FilterOnKey(steps, i + 1, now, next, name);
      assert Filter(steps, i, now, at) == Filter(steps, i + 1, now, next);
      JoinOnKey(at, next, Filter(steps, i, now, at), asked, Present(steps[i + 1..], name), name, now);
    }
  }

  /** Whether one key runs, and when it may run again, depends on that key's history alone;
      and a turn at or after its deadline plans it. */
  lemma {:induction false} KeysAreIndependent(plan: Plan, retries: map<Name, Retry>, now: int, name: Name)
    ensures var (u, next) := UnattendedPlan(plan, retries, now);
            && Lookup(next, name) ==
                 (if Present(plan.steps, name) then Some(KeyNext(Lookup(retries, name), now)) else None)
            && (Present(plan.steps, name) ==>
                  (Tried(Lookup(retries, name), now) <==>
                      exists k :: 0 <= k < |u.steps| && Describe(u.steps[k]) == name))
  {
    var at := Filtered([], [], retries, {});
    FilterOnKey(plan.steps, 0, now, at, name);
    assert plan.steps[0..] == plan.steps;
    assert KeptFrom(Filter(plan.steps, 0, now, at), 0, name) <==>
        Present(plan.steps, name) && Tried(Lookup(retries, name), now);
  }

  // ----- the backoff over a run ------------------------------------------------------

  /** The turns of one revision, with the moment of each. */
  datatype Moment = Moment(plan: Plan, now: int)

  function RetriesAfter(turns: seq<Moment>): map<Name, Retry> {
    if turns == [] then map[]
    else
      var last := turns[|turns| - 1];
      UnattendedPlan(last.plan, RetriesAfter(turns[..|turns| - 1]), last.now).1
  }

  /** The moments at which a key was tried. */
  function Attempts(turns: seq<Moment>, name: Name): seq<int> {
    if turns == [] then []
    else
      var before, last := turns[..|turns| - 1], turns[|turns| - 1];
      Attempts(before, name) + if Tried(Lookup(RetriesAfter(before), name), last.now) then [last.now] else []
  }

  /** The shortest time, in seconds, that n attempts can take. */
  function ShortestSpan(n: nat): nat
    requires n > 0
  {
    if n <= 10 then PowerOfTwo(n - 1) - 1 else 511 + 256 * (n - 10)
  }

  ghost predicate Spaced(a: seq<int>) {
    forall n :: 0 < n <= |a| ==> a[n - 1] - a[0] >= SECOND * ShortestSpan(n)
  }

  lemma {:induction false} SpacedAppend(a: seq<int>, now: int)
    requires Spaced(a) && (a != [] ==> now >= a[|a| - 1] + Delay(|a|))
    ensures Spaced(a + [now])
  {
    var b := a + [now];
    forall n | 0 < n <= |b| ensures b[n - 1] - b[0] >= SECOND * ShortestSpan(n) {
      if n == |b| && a != [] {
        assert a[|a| - 1] - a[0] >= SECOND * ShortestSpan(|a|);
      }
    }
  }

  lemma {:induction false} BackoffState(turns: seq<Moment>, name: Name)
    requires forall k :: 0 <= k < |turns| ==> Present(turns[k].plan.steps, name)
    ensures var a := Attempts(turns, name);
            && (turns == [] <==> a == [])
            && Lookup(RetriesAfter(turns), name) ==
                 (if a == [] then None else Some(Retry(|a|, a[|a| - 1] + Delay(|a|))))
            && Spaced(a)
  {
    if turns != [] {
      var before, last := turns[..|turns| - 1], turns[|turns| - 1];
      var a := Attempts(before, name);
      BackoffState(before, name);
      KeysAreIndependent(last.plan, RetriesAfter(before), last.now, name);
      if Tried(Lookup(RetriesAfter(before), name), last.now) { SpacedAppend(a, last.now); }
    }
  }

  /** For a key that every turn asks for, the first and the n-th attempt are 2^(n-1) - 1
      seconds apart up to the tenth, and 256 more for each one beyond; no wait is ever longer
      than 256 seconds, so the five-minute cap is never reached. */
  lemma {:induction false} BackoffBound(turns: seq<Moment>, name: Name, n: nat)
    requires forall k :: 0 <= k < |turns| ==> Present(turns[k].plan.steps, name)
    requires 0 < n <= |Attempts(turns, name)|
    ensures Attempts(turns, name)[n - 1] - Attempts(turns, name)[0] >=
              SECOND * (if n <= 10 then PowerOfTwo(n - 1) - 1 else 511 + 256 * (n - 10))
    ensures Delay(n) <= 256 * SECOND < 300 * SECOND
  {
    BackoffState(turns, name);
    var a := Attempts(turns, name);
    assert a[n - 1] - a[0] >= SECOND * ShortestSpan(n);
    DelayBounds(n);
  }
}
