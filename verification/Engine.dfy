/** The engine itself: what it keeps between turns, and its loops, each proved to leave what
    the functions of a plan and of a turn say. */
module Engines {
  import opened Orders
  import opened Host
  import opened Planning
  import opened Turns
  import opened NothingLost
  import opened Planner

  // ----- what is left owed -----------------------------------------------------------

  method StillOwed(owed: seq<OwedStep>, ran: set<StepKey>) returns (left: seq<OwedStep>)
    ensures left == Unrun(owed, ran)
  {
    left := [];
    for i := 0 to |owed|
      invariant left + Unrun(owed[i..], ran) == Unrun(owed, ran)
    {
      assert owed[i..][0] == owed[i] && owed[i..][1..] == owed[i + 1..];
      if OwedKey(owed[i]) !in ran { left := left + [owed[i]]; }
    }
  }

  lemma {:induction false} RefusalsAppend(a: seq<Step>, s: Step)
    ensures Refusals(a + [s]) == Refusals(a) + [Refused(s)]
  {
    if a != [] {
      assert (a + [s])[1..] == a[1..] + [s];
      RefusalsAppend(a[1..], s);
    }
  }

  function Preceded(seen: seq<Attempt>, c: Committed): Committed { c.(trace := seen + c.trace) }

  /** What is left of a commit once one more step is tried. */
  lemma {:induction false} OneStep(w: World, steps: seq<Step>, i: nat, ends: nat -> Outcome, ran: set<StepKey>,
      refused: seq<Step>, seen: seq<Attempt>)
    requires i < |steps|
    ensures var step := steps[i];
            var now := seen + [Attempt(step, w, ends(i) == Done)];
            Preceded(seen, CommitFrom(w, steps, i, ends, ran, refused)) ==
              if ends(i) == Done
              then Preceded(now, CommitFrom(Effect(w, step.action), steps, i + 1, ends, ran + {KeyOf(step)}, refused))
              else if step.action.WriteRecord?
              then Preceded(now, CommitFrom(w, steps, i + 1, ends, ran, refused + [step]))
              else Committed(AfterStep(w, step, ends(i)), ran, refused, Some(step), now)
  {
    var attempt := Attempt(steps[i], w, ends(i) == Done);
    forall rest: seq<Attempt> ensures seen + ([attempt] + rest) == (seen + [attempt]) + rest {}
  }

  // ----- the engine ------------------------------------------------------------------

  /** A submitted declaration, the renderings it gives and what the host answers. */
  datatype Asked = Asked(bytes: string, rendering: Rendering, listing: seq<Path>, probe: Probe)

  class Engine {
    var world: World
    var retries: map<Name, Retry>
    var retryRevision: Option<string>

    constructor (w: World)
      ensures world == w && retries == map[] && retryRevision == None
    {
      world, retries, retryRevision := w, map[], None;
    }

    /** Writes every file and takes away what was reclaimed, up to the first it cannot. */
    method Stage(files: seq<FileChange>, ok: nat -> bool) returns (done: bool)
      modifies this`world
      ensures (world, done) == StageFrom(old(world), files, 0, ok)
    {
      var i := 0;
      while i < |files|
        invariant 0 <= i <= |files|
        invariant StageFrom(world, files, i, ok) == StageFrom(old(world), files, 0, ok)
      {
        var change := files[i];
        if WasWritten(change) {
          if !ok(i) { return false; }
          world := PutFile(world, change.path, change.content);
        } else if change.kind == Remove && !change.deferred {
          if !ok(i) { return false; }
          world := DropFile(world, change.path);
        }
        i := i + 1;
      }
      return true;
    }

    /** Runs the steps in order and stops at the first failure, unless it is a record's. */
    method Commit(steps: seq<Step>, ends: nat -> Outcome)
        returns (ran: set<StepKey>, refused: seq<Step>, stopped: Option<Step>, trace: seq<Attempt>)
      modifies this`world
      ensures Committed(world, ran, refused, stopped, trace) == CommitFrom(old(world), steps, 0, ends, {}, [])
    {
      ran, refused, stopped, trace := {}, [], None, [];
      var i := 0;
      while i < |steps|
        invariant 0 <= i <= |steps| && stopped.None?
        invariant var rest := CommitFrom(world, steps, i, ends, ran, refused);
                  Preceded(trace, rest) == CommitFrom(old(world), steps, 0, ends, {}, [])
      {
        var step := steps[i];
        OneStep(world, steps, i, ends, ran, refused, trace);
        trace := trace + [Attempt(step, world, ends(i) == Done)];
        if ends(i) == Done {
          world := Effect(world, step.action);
          ran := ran + {KeyOf(step)};
        } else if step.action.WriteRecord? {
          refused := refused + [step];
        } else {
          if ends(i) == FailedLate { world := Effect(world, step.action); }
          stopped := Some(step);
          return;
        }
        i := i + 1;
      }
    }

    /** Writes down what this turn leaves owed. */
    method SettleOwed(owed: seq<OwedStep>, ran: set<StepKey>)
      modifies this`world
      ensures world == Settle(old(world), owed, ran)
    {
      var left := StillOwed(owed, ran);
      world := world.(owed := Sort(left, OwedOrder));
    }

    method Accept(declaration: Option<string>, luck: bool) returns (ok: bool)
      modifies this`world
      ensures ok == (declaration.None? || old(world).accepted == declaration || luck)
      ensures world == if ok then Accepting(old(world), declaration) else old(world)
    {
      ok := true;
      if declaration.Some? && world.accepted != declaration {
        ok := luck;
        if ok { world := world.(accepted := declaration); }
      }
    }

    method StagedAndCommitted(plan: Plan, declaration: Option<string>, luck: Luck)
        returns (result: TurnResult, ran: set<StepKey>)
      modifies this`world
      ensures (result, ran) == StageAndCommit(old(world), plan, declaration, luck) && world == result.world
    {
      if Empty(plan) {
        var ok := Accept(declaration, luck.accept);
        var ending := if ok then Succeeded else StoppedInStaging;
        result := TurnResult(world, ending, ok && declaration.Some?, plan.failing, [], ok);
        return result, {};
      }
      var staged := Stage(plan.files, luck.stage);
      var ok := false;
      if staged { ok := Accept(declaration, luck.accept); }
      if !ok { return TurnResult(world, StoppedInStaging, false, plan.failing, [], false), {}; }
      var refused, stopped, trace;
      ran, refused, stopped, trace := Commit(plan.steps, luck.commit);
      var failing := plan.failing + Refusals(refused);
      if stopped.Some? {
        return TurnResult(world, StoppedAt(stopped.value), declaration.Some?, failing, trace, false), ran;
      }
      if plan.firewall.apply && luck.record { world := world.(installed := Some(plan.firewall.ruleset)); }
      result := TurnResult(world, Succeeded, declaration.Some?, failing, trace, !plan.firewall.apply || luck.record);
    }

    /** One turn: whatever it reached, what it did not run of its owed steps is written down. */
    method RunTurn(plan: Plan, declaration: Option<string>, luck: Luck) returns (result: TurnResult)
      modifies this`world
      ensures result == Turn(old(world), plan, declaration, luck) && world == result.world
    {
      var ran;
      result, ran := StagedAndCommitted(plan, declaration, luck);
      SettleOwed(plan.owed, ran);
      result := result.(world := world);
    }

    /** The plan an unattended turn may run now; every attempt it plans is counted. */
    method HoldBack(plan: Plan, now: int) returns (allowed: Plan)
      modifies this`retries
      ensures (allowed, retries) == UnattendedPlan(plan, old(retries), now)
    {
      var kept, dropped, present := [], [], {};
      var i := 0;
      while i < |plan.steps|
        invariant 0 <= i <= |plan.steps|
        invariant Filter(plan.steps, i, now, Filtered(kept, dropped, retries, present))
               == Filter(plan.steps, 0, now, Filtered([], [], old(retries), {}))
      {
        var step := plan.steps[i];
        if UnattendedForbidden(step) {
          dropped := dropped + [Forbidden(step)];
        } else {
          var name := Describe(step);
          present := present + {name};
          if name in retries && now < retries[name].next {
            dropped := dropped + [HeldBack(step)];
          } else {
            var attempts := (if name in retries then retries[name].attempts else 0) + 1;
            retries := retries[name := Retry(attempts, now + Delay(attempts))];
            kept := kept + [step];
          }
        }
        i := i + 1;
      }
      retries := map name | name in retries && name in present :: retries[name];
      allowed := plan.(files := Deferring(plan.files), steps := kept, failing := plan.failing + dropped);
    }

    /** A submission: the history of retries starts anew, and the declaration is recorded
        between staging and the first command. */
    method Submit(asked: Asked, luck: Luck) returns (result: TurnResult)
      modifies this
      ensures var plan := PlanFor(asked.rendering, asked.listing, old(world), asked.probe);
              result == Turn(old(world), plan, Some(asked.bytes), luck)
      ensures world == result.world && retries == map[] && retryRevision == Some(asked.bytes)
      ensures old(Kept(world)) ==> Kept(world)
    {
      retries, retryRevision := map[], Some(asked.bytes);
      var plan := MakePlan(asked.rendering, asked.listing, world, asked.probe);
      ghost var before := world;
      result := RunTurn(plan, Some(asked.bytes), luck);
      if Kept(before) {
        EventKeeps(before, Attended(asked.rendering, asked.listing, asked.probe, Some(asked.bytes), luck), world);
      }
    }

    /** A turn toward a trial, or one somebody asked for toward the record: it submits nothing. */
    method Attend(asked: Asked, luck: Luck) returns (result: TurnResult)
      modifies this`world
      ensures result == Turn(old(world), PlanFor(asked.rendering, asked.listing, old(world), asked.probe), None, luck)
      ensures world == result.world && (old(Kept(world)) ==> Kept(world))
    {
      ghost var before := world;
      var plan := MakePlan(asked.rendering, asked.listing, world, asked.probe);
      result := RunTurn(plan, None, luck);
      if Kept(before) { EventKeeps(before, Attended(asked.rendering, asked.listing, asked.probe, None, luck), world); }
    }

    /** An unattended turn toward the record; another revision starts its own history. */
    method ReconcileUnattended(asked: Asked, now: int, luck: Luck) returns (result: TurnResult)
      modifies this
      ensures var history := if old(retryRevision) == Some(asked.bytes) then old(retries) else map[];
              var (plan, next) := UnattendedPlan(PlanFor(asked.rendering, asked.listing, old(world), asked.probe),
                  history, now);
              result == Turn(old(world), plan, None, luck) && retries == next
      ensures world == result.world && retryRevision == Some(asked.bytes) && (old(Kept(world)) ==> Kept(world))
    {
      if retryRevision != Some(asked.bytes) { retries, retryRevision := map[], Some(asked.bytes); }
      ghost var before, history := world, retries;
      var full := MakePlan(asked.rendering, asked.listing, world, asked.probe);
      var plan := HoldBack(full, now);
      result := RunTurn(plan, None, luck);
      if Kept(before) {
        EventKeeps(before, Unattended(asked.rendering, asked.listing, asked.probe, history, now, luck), world);
      }
    }

    /** An unattended turn toward a trial keeps whatever history there is. */
    method ReconcileTrial(asked: Asked, now: int, luck: Luck) returns (result: TurnResult)
      modifies this
      ensures var (plan, next) := UnattendedPlan(PlanFor(asked.rendering, asked.listing, old(world), asked.probe),
          old(retries), now);
              result == Turn(old(world), plan, None, luck) && retries == next
      ensures world == result.world && retryRevision == old(retryRevision) && (old(Kept(world)) ==> Kept(world))
    {
      ghost var before, history := world, retries;
      var full := MakePlan(asked.rendering, asked.listing, world, asked.probe);
      var plan := HoldBack(full, now);
      result := RunTurn(plan, None, luck);
      if Kept(before) {
        EventKeeps(before, Unattended(asked.rendering, asked.listing, asked.probe, history, now, luck), world);
      }
    }
  }
}
