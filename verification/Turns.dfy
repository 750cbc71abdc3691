/** One turn, as a function of the plan and of how everything it tries turns out: staging,
    acceptance, the commit, what is settled as owed; and the filter and backoff an
    unattended turn puts in front of it. */
module Turns {
  import opened Orders
  import opened Host
  import opened Planning

  // ----- staging ---------------------------------------------------------------------

  /** What staging does for one change; a removal that is deferred is left to a step. */
  function StageOne(w: World, c: FileChange): World {
    if WasWritten(c) then PutFile(w, c.path, c.content)
    else if c.kind == Remove && !c.deferred then DropFile(w, c.path)
    else w
  }

  predicate Touches(c: FileChange) { WasWritten(c) || (c.kind == Remove && !c.deferred) }

  /** Stages the changes from i on, stopping at the first that cannot be made. */
  function StageFrom(w: World, files: seq<FileChange>, i: nat, ok: nat -> bool): (World, bool)
    requires i <= |files|
    decreases |files| - i
  {
    if i == |files| then (w, true)
    else if Touches(files[i]) && !ok(i) then (w, false)
    else StageFrom(StageOne(w, files[i]), files, i + 1, ok)
  }

  // ----- the commit ------------------------------------------------------------------

  /** One step as it was tried, and the world it was tried in. */
  datatype Attempt = Attempt(step: Step, before: World, ok: bool)

  datatype Committed = Committed(world: World, ran: set<StepKey>, refused: seq<Step>, stopped: Option<Step>,
      trace: seq<Attempt>)

  function AfterStep(w: World, step: Step, outcome: Outcome): World {
    if outcome == Failed then w else Effect(w, step.action)
  }

  /** Runs the steps from i on and stops at the first failure, unless it is a record's. */
  function CommitFrom(w: World, steps: seq<Step>, i: nat, ends: nat -> Outcome, ran: set<StepKey>,
      refused: seq<Step>): Committed
    requires i <= |steps|
    decreases |steps| - i
  {
    if i == |steps| then Committed(w, ran, refused, None, [])
    else
      var step := steps[i];
      var attempt := Attempt(step, w, ends(i) == Done);
      var next := AfterStep(w, step, ends(i));
      if ends(i) == Done then
        var rest := CommitFrom(next, steps, i + 1, ends, ran + {KeyOf(step)}, refused);
        rest.(trace := [attempt] + rest.trace)
      else if step.action.WriteRecord? then
        var rest := CommitFrom(w, steps, i + 1, ends, ran, refused + [step]);
        rest.(trace := [attempt] + rest.trace)
      else
        Committed(next, ran, refused, Some(step), [attempt])
  }

  // ----- settling --------------------------------------------------------------------

  function Unrun(owed: seq<OwedStep>, ran: set<StepKey>): seq<OwedStep> {
    if owed == [] then []
    else (if OwedKey(owed[0]) !in ran then [owed[0]] else []) + Unrun(owed[1..], ran)
  }

  function JoinArgs(args: seq<string>): string {
    if args == [] then "" else if |args| == 1 then args[0] else args[0] + " " + JoinArgs(args[1..])
  }

  function OwedText(o: OwedStep): string { o.name + " " + JoinArgs(o.args) }

  predicate OwedOrder(a: OwedStep, b: OwedStep) {
    a.phase < b.phase || (a.phase == b.phase && TextLe(OwedText(a), OwedText(b)))
  }

  function Settle(w: World, owed: seq<OwedStep>, ran: set<StepKey>): World {
    w.(owed := Sort(Unrun(owed, ran), OwedOrder))
  }

  // ----- the turn --------------------------------------------------------------------

  /** How everything one turn tries turns out. */
  datatype Luck = Luck(stage: nat -> bool, accept: bool, commit: nat -> Outcome, record: bool)

  datatype Ending = Succeeded | StoppedInStaging | StoppedAt(step: Step)

  datatype TurnResult = TurnResult(
    world: World, ending: Ending, wasAccepted: bool, failing: seq<Failure>, trace: seq<Attempt>, recorded: bool)

  function Accepting(w: World, declaration: Option<string>): World {
    if declaration.Some? then w.(accepted := declaration) else w
  }

  /** Whether the declaration can be recorded: one already recorded is not written again. */
  predicate CanAccept(w: World, declaration: Option<string>, luck: Luck) {
    declaration.None? || w.accepted == declaration || luck.accept
  }

  function Refusals(steps: seq<Step>): seq<Failure> {
    if steps == [] then [] else [Refused(steps[0])] + Refusals(steps[1..])
  }

  function Installed(w: World, plan: Plan, luck: Luck): World {
    if plan.firewall.apply && luck.record then w.(installed := Some(plan.firewall.ruleset)) else w
  }

  function StageAndCommit(w: World, plan: Plan, declaration: Option<string>, luck: Luck): (TurnResult, set<StepKey>) {
    if Empty(plan) then
      if CanAccept(w, declaration, luck) then
        (TurnResult(Accepting(w, declaration), Succeeded, declaration.Some?, plan.failing, [], true), {})
      else (TurnResult(w, StoppedInStaging, false, plan.failing, [], false), {})
    else
      var (staged, ok) := StageFrom(w, plan.files, 0, luck.stage);
      if !ok || !CanAccept(staged, declaration, luck) then
        (TurnResult(staged, StoppedInStaging, false, plan.failing, [], false), {})
      else
        var c := CommitFrom(Accepting(staged, declaration), plan.steps, 0, luck.commit, {}, []);
        var failing := plan.failing + Refusals(c.refused);
        if c.stopped.Some? then
          (TurnResult(c.world, StoppedAt(c.stopped.value), declaration.Some?, failing, c.trace, false), c.ran)
        else
          (TurnResult(Installed(c.world, plan, luck), Succeeded, declaration.Some?, failing, c.trace,
             !plan.firewall.apply || luck.record), c.ran)
  }

  /** Whatever the turn reached, what it did not run of the owed steps is owed by the next. */
  function Turn(w: World, plan: Plan, declaration: Option<string>, luck: Luck): TurnResult {
    var (result, ran) := StageAndCommit(w, plan, declaration, luck);
    result.(world := Settle(result.world, plan.owed, ran))
  }

  datatype State = Converged | Waiting | Failing

  function StateOf(plan: Plan, result: TurnResult): State {
    if result.ending != Succeeded then Failing
    else if result.failing != [] then Failing
    else if plan.waiting != [] then Waiting
    else Converged
  }

  // ----- the unattended line and the backoff -----------------------------------------

  predicate UnattendedForbidden(step: Step) {
    || step.action.RemoveFile?
    || (&& step.action.Run? && step.action.command.name == "systemctl"
        && ("restart" in step.action.command.args || "disable" in step.action.command.args))
  }

  const SECOND := 1_000_000_000

  datatype Retry = Retry(attempts: nat, next: int)

  function PowerOfTwo(n: nat): (r: nat)
    ensures r >= 1
  {
    if n == 0 then 1 else 2 * PowerOfTwo(n - 1)
  }

  function Least(a: int, b: int): int { if a < b then a else b }

  /** How long the next attempt has to wait after this many. */
  function Delay(attempts: nat): int
    requires attempts > 0
  {
    Least(SECOND * PowerOfTwo(Least(attempts - 1, 8)), 300 * SECOND)
  }

  function NextRetry(retries: map<Name, Retry>, name: Name, now: int): Retry {
    var attempts := (if name in retries then retries[name].attempts else 0) + 1;
    Retry(attempts, now + Delay(attempts))
  }

  predicate Held(retries: map<Name, Retry>, name: Name, now: int) {
    name in retries && now < retries[name].next
  }

  datatype Filtered = Filtered(kept: seq<Step>, dropped: seq<Failure>, retries: map<Name, Retry>, present: set<Name>)

  /** The steps from i on that an unattended turn may and may now run. */
  function Filter(steps: seq<Step>, i: nat, now: int, at: Filtered): Filtered
    requires i <= |steps|
    decreases |steps| - i
  {
    if i == |steps| then at
    else
      var step, name := steps[i], Describe(steps[i]);
      if UnattendedForbidden(step) then
        Filter(steps, i + 1, now, at.(dropped := at.dropped + [Forbidden(step)]))
      else if Held(at.retries, name, now) then
        Filter(steps, i + 1, now, at.(dropped := at.dropped + [HeldBack(step)], present := at.present + {name}))
      else
        Filter(steps, i + 1, now, Filtered(at.kept + [step], at.dropped,
          at.retries[name := NextRetry(at.retries, name, now)], at.present + {name}))
  }

  function Deferring(files: seq<FileChange>): seq<FileChange> {
    seq(|files|, i requires 0 <= i < |files| =>
      if files[i].kind == Remove then files[i].(deferred := true) else files[i])
  }

  function UnattendedPlan(plan: Plan, retries: map<Name, Retry>, now: int): (Plan, map<Name, Retry>) {
    var f := Filter(plan.steps, 0, now, Filtered([], [], retries, {}));
    (plan.(files := Deferring(plan.files), steps := f.kept, failing := plan.failing + f.dropped),
     map name | name in f.retries && name in f.present :: f.retries[name])
  }
}
