/** The resident process: one loop over ticks, address events, requests and timers, around
    an engine, with at most one trial held in memory. */
module Serve {
  import opened Host
  import opened Planning
  import opened Turns
  import opened NothingLost
  import opened Engines
  import Safety

  // ----- what happens to the process -------------------------------------------------

  /** A declaration as this host renders it. */
  datatype Sight = Sight(rendering: Rendering, listing: seq<Path>, probe: Probe)

  /** What the host answers while one event is handled: whether the record can be loaded, each
      time it is asked, what a declaration gives, if it is valid and can be planned. */
  datatype Answers = Answers(loads: bool, loadsAgain: bool, sees: string -> Option<Sight>, now: int, luck: Luck)

  datatype Occasion =
    | Periodic(answers: Answers)          // the resync tick, or an address that came or went
    | SubmitAsked(bytes: string, answers: Answers)
    | TrialAsked(bytes: string, deadline: Option<int>, answers: Answers)
    | ConfirmAsked(written: bool)
    | CancelAsked(answers: Answers)
    | TimerFires(timer: nat, answers: Answers)
    | HostMoves(event: Event)             // anything that happens beside the process

  /** One turn that was run: toward which declaration, and whether somebody asked for it. */
  datatype Aim = Aim(bytes: string, attended: bool)

  datatype State = State(
    world: World,
    retries: map<Name, Retry>,
    retryRevision: Option<string>,
    trial: Option<string>,
    base: Option<string>,       // the record when the trial began, when it could be loaded
    deadline: int,
    expiry: Option<nat>,        // the timer listened to
    timers: seq<int>,           // when each timer ever started fires
    turns: seq<Aim>)

  function Loaded(w: World, loads: bool): Option<string> { if loads then w.accepted else None }

  function AskedFor(bytes: string, sight: Sight): Asked { Asked(bytes, sight.rendering, sight.listing, sight.probe) }

  function PlanOn(w: World, sight: Sight): Plan { PlanFor(sight.rendering, sight.listing, w, sight.probe) }

  // ----- what each event leaves ------------------------------------------------------

  function AttendedTurn(s: State, bytes: string, sight: Sight, luck: Luck): State {
    s.(world := Turn(s.world, PlanOn(s.world, sight), None, luck).world, turns := s.turns + [Aim(bytes, true)])
  }

  function SubmittedTurn(s: State, bytes: string, sight: Sight, luck: Luck): State {
    s.(world := Turn(s.world, PlanOn(s.world, sight), Some(bytes), luck).world,
       retries := map[], retryRevision := Some(bytes), turns := s.turns + [Aim(bytes, true)])
  }

  function UnattendedTurn(s: State, bytes: string, sight: Sight, a: Answers): State {
    var (plan, next) := UnattendedPlan(PlanOn(s.world, sight), s.retries, a.now);
    s.(world := Turn(s.world, plan, None, a.luck).world, retries := next, turns := s.turns + [Aim(bytes, false)])
  }

  function NewRevision(s: State, bytes: string): State {
    if s.retryRevision == Some(bytes) then s else s.(retries := map[], retryRevision := Some(bytes))
  }

  function Dropped(s: State): State { s.(trial := None, expiry := None) }

  /** One turn somebody asked for, toward the record. */
  function TowardRecord(s: State, a: Answers): State {
    var record := Loaded(s.world, a.loads);
    if record.None? || a.sees(record.value).None? then s
    else AttendedTurn(s, record.value, a.sees(record.value).value, a.luck)
  }

  function AfterPlainApply(s: State, a: Answers): State {
    var record := Loaded(s.world, a.loads);
    if s.trial.Some? && record.Some? && record != s.base then Dropped(s) else s
  }

  function TurnOfTheClock(s: State, a: Answers): State {
    var record := Loaded(s.world, a.loadsAgain);
    if s.trial.Some? then
      if a.sees(s.trial.value).None? then s else UnattendedTurn(s, s.trial.value, a.sees(s.trial.value).value, a)
    else if record.None? || a.sees(record.value).None? then s
    else UnattendedTurn(NewRevision(s, record.value), record.value, a.sees(record.value).value, a)
  }

  function Later(a: int, b: int): int { if a < b then b else a }

  function Hold(s: State, bytes: string, deadline: int, a: Answers): State {
    s.(trial := Some(bytes), base := Loaded(s.world, a.loads), deadline := deadline,
       expiry := Some(|s.timers|), timers := s.timers + [Later(a.now, deadline)])
  }

  function MovedWorld(w: World, e: Event): World {
    match e
    case Edited(p, content) => Edit(w, p, content)
    case ReadByItself(d) => ReadAgain(w, d)
    case Elsewhere(after) =>
      if after.disk == w.disk && after.seen == w.seen && after.foreign == w.foreign
          && after.owed == w.owed && after.accepted == w.accepted
      then after else w
    case _ => w
  }

  function Next(s: State, e: Occasion): State {
    match e
    case Periodic(a) => TurnOfTheClock(AfterPlainApply(s, a), a)
    case SubmitAsked(bytes, a) =>
      if a.sees(bytes).None? then Dropped(s) else SubmittedTurn(Dropped(s), bytes, a.sees(bytes).value, a.luck)
    case TrialAsked(bytes, deadline, a) =>
      if deadline.None? then s
      else if a.sees(bytes).None? then Hold(s, bytes, deadline.value, a)
      else AttendedTurn(Hold(s, bytes, deadline.value, a), bytes, a.sees(bytes).value, a.luck)
    case ConfirmAsked(written) =>
      if s.trial.None? || !(written || s.world.accepted == s.trial) then s
      else Dropped(s).(world := s.world.(accepted := s.trial))
    case CancelAsked(a) => if s.trial.None? then s else TowardRecord(Dropped(s), a)
    case TimerFires(timer, a) => if s.expiry == Some(timer) then TowardRecord(Dropped(s), a) else s
    case HostMoves(event) => s.(world := MovedWorld(s.world, event))
  }

  /** A timer fires once it was started and its moment has come. */
  predicate Possible(s: State, e: Occasion) {
    e.TimerFires? ==> e.timer < |s.timers| && s.timers[e.timer] <= e.answers.now
  }

  // ----- the process -----------------------------------------------------------------

  class Server {
    const engine: Engine
    var trial: Option<string>
    var base: Option<string>
    var deadline: int
    var expiry: Option<nat>
    var timers: seq<int>
    var turns: seq<Aim>

    constructor (engine: Engine)
      ensures this.engine == engine && trial == None && expiry == None && timers == [] && turns == []
    {
      this.engine, trial, base, deadline, expiry, timers, turns := engine, None, None, 0, None, [], [];
    }

    function View(): State
      reads this, engine
    {
      State(engine.world, engine.retries, engine.retryRevision, trial, base, deadline, expiry, timers, turns)
    }

    method Attend(bytes: string, sight: Sight, luck: Luck)
      modifies this`turns, engine`world
      ensures View() == AttendedTurn(old(View()), bytes, sight, luck)
    {
      var result := engine.Attend(AskedFor(bytes, sight), luck);
      turns := turns + [Aim(bytes, true)];
    }

    method Reconcile(a: Answers)
      modifies this`turns, engine`world
      ensures View() == TowardRecord(old(View()), a)
    {
      var record := Loaded(engine.world, a.loads);
      if record.Some? {
        var sight := a.sees(record.value);
        if sight.Some? { Attend(record.value, sight.value, a.luck); }
      }
    }

    /** Drops the trial and runs one turn toward the record. */
    method Revert(a: Answers)
      modifies this, engine`world
      ensures View() == TowardRecord(Dropped(old(View())), a)
    {
      trial, expiry := None, None;
      Reconcile(a);
    }

    /** One unattended turn: toward the trial when one is held, else toward the record. */
    method Run(a: Answers)
      modifies this, engine
      ensures View() == Next(old(View()), Periodic(a))
    {
      if trial.Some? {
        var record := Loaded(engine.world, a.loads);
        if record.Some? && record != base { trial, expiry := None, None; }
      }
      if trial.Some? {
        var sight := a.sees(trial.value);
        if sight.Some? {
          var result := engine.ReconcileTrial(AskedFor(trial.value, sight.value), a.now, a.luck);
          turns := turns + [Aim(trial.value, false)];
        }
      } else {
        var record := Loaded(engine.world, a.loadsAgain);
        if record.Some? {
          var sight := a.sees(record.value);
          if sight.Some? {
            var result := engine.ReconcileUnattended(AskedFor(record.value, sight.value), a.now, a.luck);
            turns := turns + [Aim(record.value, false)];
          }
        }
      }
    }

    method Submit(bytes: string, a: Answers)
      modifies this, engine
      ensures View() == Next(old(View()), SubmitAsked(bytes, a))
    {
      trial, expiry := None, None;
      var sight := a.sees(bytes);
      if sight.Some? {
        var result := engine.Submit(AskedFor(bytes, sight.value), a.luck);
        turns := turns + [Aim(bytes, true)];
      }
    }

    method Try(bytes: string, until: Option<int>, a: Answers)
      modifies this, engine`world
      ensures View() == Next(old(View()), TrialAsked(bytes, until, a))
    {
      if until.None? { return; }
      base := Loaded(engine.world, a.loads);
      trial, deadline := Some(bytes), until.value;
      expiry, timers := Some(|timers|), timers + [Later(a.now, until.value)];
      var sight := a.sees(bytes);
      if sight.Some? { Attend(bytes, sight.value, a.luck); }
    }

    method Confirm(written: bool)
      modifies this, engine`world
      ensures View() == Next(old(View()), ConfirmAsked(written))
    {
      if trial.None? { return; }
      var ok := engine.Accept(trial, written);
      if ok { trial, expiry := None, None; }
    }

    /** One event of the loop. */
    method Handle(e: Occasion)
      modifies this, engine
      ensures View() == Next(old(View()), e)
    {
      match e
      case Periodic(a) => Run(a);
      case SubmitAsked(bytes, a) => Submit(bytes, a);
      case TrialAsked(bytes, until, a) => Try(bytes, until, a);
      case ConfirmAsked(written) => Confirm(written);
      case CancelAsked(a) => if trial.Some? { Revert(a); }
      case TimerFires(timer, a) => if expiry == Some(timer) { Revert(a); }
      case HostMoves(event) => engine.world := MovedWorld(engine.world, event);
    }
  }

  // ----- the record ------------------------------------------------------------------

  /** Whether a submission got as far as being recorded. */
  predicate Admits(s: State, e: Occasion) {
    && e.SubmitAsked? && e.answers.sees(e.bytes).Some?
    && Turn(s.world, PlanOn(s.world, e.answers.sees(e.bytes).value), Some(e.bytes), e.answers.luck).wasAccepted
  }

  predicate Confirms(s: State, e: Occasion) {
    e.ConfirmAsked? && s.trial.Some? && (e.written || s.world.accepted == s.trial)
  }

  lemma {:induction false} RevertKeepsRecord(s: State, a: Answers)
    ensures TowardRecord(s, a).world.accepted == s.world.accepted
  {
    var record := Loaded(s.world, a.loads);
    if record.Some? && a.sees(record.value).Some? {
      Safety.RecordBeforeCommands(s.world, PlanOn(s.world, a.sees(record.value).value), None, a.luck);
    }
  }

  lemma {:induction false} ClockKeepsRecord(s: State, a: Answers)
    ensures TurnOfTheClock(s, a).world.accepted == s.world.accepted
  {
    var record := if s.trial.Some? then s.trial else Loaded(s.world, a.loadsAgain);
    if record.Some? && a.sees(record.value).Some? {
      var from := if s.trial.Some? then s else NewRevision(s, record.value);
      Safety.RecordBeforeCommands(s.world,
          UnattendedPlan(PlanOn(s.world, a.sees(record.value).value), from.retries, a.now).0, None, a.luck);
    }
  }

  /** The record changes by a submission that is accepted and by a confirmation, and then to
      exactly the bytes submitted or tried; by nothing else, and to nothing else. */
  lemma {:induction false} RecordMoves(s: State, e: Occasion)
    ensures Next(s, e).world.accepted ==
              if Admits(s, e) then Some(e.bytes) else if Confirms(s, e) then s.trial else s.world.accepted
  {
    match e
    case Periodic(a) => ClockKeepsRecord(AfterPlainApply(s, a), a);
    case SubmitAsked(bytes, a) =>
      if a.sees(bytes).Some? {
        Safety.RecordBeforeCommands(s.world, PlanOn(s.world, a.sees(bytes).value), Some(bytes), a.luck);
      }
    case TrialAsked(bytes, deadline, a) =>
      if a.sees(bytes).Some? {
        Safety.RecordBeforeCommands(s.world, PlanOn(s.world, a.sees(bytes).value), None, a.luck);
      }
    case ConfirmAsked(written) =>
    case CancelAsked(a) => RevertKeepsRecord(Dropped(s), a);
    case TimerFires(timer, a) => RevertKeepsRecord(Dropped(s), a);
    case HostMoves(event) =>
  }

  // ----- what always holds -----------------------------------------------------------

  /** A trial is held exactly when its timer is; the timer is set to no earlier than the
      trial's deadline; and the record is what it was when the trial began. */
  ghost predicate Holding(s: State) {
    && (s.trial.Some? <==> s.expiry.Some?)
    && (s.expiry.Some? ==> s.expiry.value < |s.timers| && s.timers[s.expiry.value] >= s.deadline)
    && (s.trial.Some? && s.base.Some? ==> s.world.accepted == s.base)
  }

  predicate SameTrial(s: State, t: State) {
    t.trial == s.trial && t.expiry == s.expiry && t.deadline == s.deadline && t.base == s.base && t.timers == s.timers
    && t.world.accepted == s.world.accepted
  }

  lemma {:induction false} RevertLeaves(s: State, a: Answers)
    ensures SameTrial(s, TowardRecord(s, a))
  {
    RevertKeepsRecord(s, a);
  }

  lemma {:induction false} ClockLeaves(s: State, a: Answers)
    ensures SameTrial(s, TurnOfTheClock(s, a))
  {
    ClockKeepsRecord(s, a);
  }

  lemma {:induction false} AttendedLeaves(s: State, bytes: string, sight: Sight, luck: Luck)
    ensures SameTrial(s, AttendedTurn(s, bytes, sight, luck))
  {
    Safety.RecordBeforeCommands(s.world, PlanOn(s.world, sight), None, luck);
  }

  lemma {:induction false} SameHolds(s: State, t: State)
    requires Holding(s) && SameTrial(s, t)
    ensures Holding(t)
  {}

  lemma {:induction false} NoneHolds(t: State)
    requires t.trial == None && t.expiry == None
    ensures Holding(t)
  {}

  lemma {:induction false} NextHolds(s: State, e: Occasion)
    requires Holding(s)
    ensures Holding(Next(s, e))
  {
    match e
    case Periodic(a) =>
      ClockLeaves(AfterPlainApply(s, a), a);
      SameHolds(AfterPlainApply(s, a), Next(s, e));
    case SubmitAsked(bytes, a) => NoneHolds(Next(s, e));
    case TrialAsked(bytes, deadline, a) =>
      if deadline.Some? {
        var held := Hold(s, bytes, deadline.value, a);
        if a.sees(bytes).Some? {
          AttendedLeaves(held, bytes, a.sees(bytes).value, a.luck);
          SameHolds(held, Next(s, e));
        }
      }
    case ConfirmAsked(written) => if Confirms(s, e) { NoneHolds(Next(s, e)); }
    case CancelAsked(a) =>
      RevertLeaves(Dropped(s), a);
      SameHolds(if s.trial.Some? then Dropped(s) else s, Next(s, e));
    case TimerFires(timer, a) =>
      RevertLeaves(Dropped(s), a);
      SameHolds(if s.expiry == Some(timer) then Dropped(s) else s, Next(s, e));
    case HostMoves(event) => SameHolds(s, Next(s, e));
  }

  lemma {:induction false} AttendedKeeps(w: World, sight: Sight, declaration: Option<string>, luck: Luck)
    requires Kept(w)
    ensures Kept(Turn(w, PlanOn(w, sight), declaration, luck).world)
  {
    EventKeeps(w, Event.Attended(sight.rendering, sight.listing, sight.probe, declaration, luck),
        Turn(w, PlanOn(w, sight), declaration, luck).world);
  }

  lemma {:induction false} UnattendedKeeps(w: World, sight: Sight, retries: map<Name, Retry>, now: int, luck: Luck)
    requires Kept(w)
    ensures Kept(Turn(w, UnattendedPlan(PlanOn(w, sight), retries, now).0, None, luck).world)
  {
    EventKeeps(w, Event.Unattended(sight.rendering, sight.listing, sight.probe, retries, now, luck),
      Turn(w, UnattendedPlan(PlanOn(w, sight), retries, now).0, None, luck).world);
  }

  lemma {:induction false} ClockKeeps(s: State, a: Answers)
    requires Kept(s.world)
    ensures Kept(TurnOfTheClock(s, a).world)
  {
    var aim := if s.trial.Some? then s.trial else Loaded(s.world, a.loadsAgain);
    if aim.Some? && a.sees(aim.value).Some? {
      var start := if s.trial.Some? then s else NewRevision(s, aim.value);
      UnattendedKeeps(s.world, a.sees(aim.value).value, start.retries, a.now, a.luck);
    }
  }

  lemma {:induction false} ConfirmKeeps(w: World, record: Option<string>)
    requires Kept(w)
    ensures Kept(w.(accepted := record))
  {
    EventKeeps(w, Elsewhere(w.(accepted := record)), w.(accepted := record));
  }

  /** Whatever the loop is interrupted by, what a daemon has not read stays in the owed file. */
  lemma {:induction false} NextKeeps(s: State, e: Occasion)
    requires Kept(s.world)
    ensures Kept(Next(s, e).world)
  {
    match e
    case Periodic(a) => ClockKeeps(AfterPlainApply(s, a), a);
    case SubmitAsked(bytes, a) =>
      if a.sees(bytes).Some? { AttendedKeeps(s.world, a.sees(bytes).value, Some(bytes), a.luck); }
    case TrialAsked(bytes, deadline, a) =>
      if a.sees(bytes).Some? { AttendedKeeps(s.world, a.sees(bytes).value, None, a.luck); }
    case ConfirmAsked(written) => ConfirmKeeps(s.world, s.trial);
    case CancelAsked(a) => RevertKeeps(s, a);
    case TimerFires(timer, a) => RevertKeeps(s, a);
    case HostMoves(event) => MovedKeeps(s.world, event);
  }

  lemma {:induction false} MovedKeeps(w: World, e: Event)
    requires Kept(w)
    ensures Kept(MovedWorld(w, e))
  {
    if MovedWorld(w, e) != w { EventKeeps(w, e, MovedWorld(w, e)); }
  }

  lemma {:induction false} RevertKeeps(s: State, a: Answers)
    requires Kept(s.world)
    ensures Kept(TowardRecord(Dropped(s), a).world)
  {
    var record := Loaded(s.world, a.loads);
    if record.Some? && a.sees(record.value).Some? { AttendedKeeps(s.world, a.sees(record.value).value, None, a.luck); }
  }

  // ----- how a trial ends, and where turns aim ---------------------------------------

  /** A cancellation, or its own timer, drops the trial and runs one turn toward the record,
      which stays as it was; any other timer does nothing at all. */
  lemma {:induction false} TrialEnds(s: State, e: Occasion)
    requires Holding(s) && (e.CancelAsked? || e.TimerFires?)
    ensures var ends := s.trial.Some? && (e.CancelAsked? || s.expiry == Some(e.timer));
            var record := Loaded(s.world, e.answers.loads);
            if !ends then Next(s, e) == s
            else
              && Next(s, e).trial == None && Next(s, e).expiry == None
              && Next(s, e).world.accepted == s.world.accepted
              && Next(s, e).turns == s.turns +
                   (if record.Some? && e.answers.sees(record.value).Some? then [Aim(record.value, true)] else [])
  {
    RecordMoves(s, e);
    if e.CancelAsked? || s.expiry == Some(e.timer) { RevertKeepsRecord(Dropped(s), e.answers); }
  }

  /** What a tick aims at: the trial while it is held, unless another declaration was recorded
      since it began; and else the record, if it can be loaded. */
  function AimOfTick(s: State, a: Answers): Option<string> {
    if s.trial.Some? && !(a.loads && s.world.accepted.Some? && s.world.accepted != s.base) then s.trial
    else if a.loadsAgain then s.world.accepted
    else None
  }

  /** A turn of the clock is unattended, aims at the trial while one is held and at the record
      otherwise, and is run exactly when that can be loaded and seen. */
  lemma {:induction false} ClockAims(s: State, a: Answers)
    ensures var next, aim := Next(s, Periodic(a)), AimOfTick(s, a);
            && next.turns ==
                 s.turns + (if aim.Some? && a.sees(aim.value).Some? then [Aim(aim.value, false)] else [])
            && (aim.Some? ==> aim == if next.trial.Some? then next.trial else s.world.accepted)
            && (next.trial == s.trial || next.trial == None)
  {
    var t := AfterPlainApply(s, a);
    var record := if t.trial.Some? then t.trial else Loaded(t.world, a.loadsAgain);
    assert record == AimOfTick(s, a);
  }

  /** Nothing else changes the record while a trial is held, so a trial ends "by a plain
      apply" exactly when the record could not be loaded as it began, and now can. */
  lemma {:induction false} PlainApplyMeansUnread(s: State, a: Answers)
    requires Holding(s) && s.trial.Some?
    ensures Next(s, Periodic(a)).trial == None <==> s.base == None && Loaded(s.world, a.loads) != None
  {}

  // ----- which turn each event runs, and what it leaves ------------------------------

  /** The world after a turn somebody asked for. */
  function WorldAsked(w: World, sight: Sight, declaration: Option<string>, luck: Luck): World {
    ResultOf(Event.Attended(sight.rendering, sight.listing, sight.probe, declaration, luck), w).world
  }

  /** Nothing but the trial and its timer can have changed. */
  predicate NoTurn(s: State, t: State) {
    t.world == s.world && t.turns == s.turns && t.retries == s.retries && t.retryRevision == s.retryRevision
  }

  /** One turn somebody asked for was run, toward these bytes, and it alone. */
  predicate RanAttended(s: State, t: State, bytes: string, sight: Sight, luck: Luck) {
    && t.turns == s.turns + [Aim(bytes, true)] && t.world == WorldAsked(s.world, sight, None, luck)
    && t.retries == s.retries && t.retryRevision == s.retryRevision
  }

  /** A tick runs exactly one turn, unattended, toward what it aims at, if that is there and can
      be seen, and none otherwise. The retries start anew for another record than the last, and
      go on otherwise and during a trial. */
  lemma {:induction false} TickRuns(s: State, a: Answers)
    ensures var t, aim := Next(s, Periodic(a)), AimOfTick(s, a);
            if aim.None? || a.sees(aim.value).None? then NoTurn(s, t)
            else
              var sight := a.sees(aim.value).value;
              var toRecord := s.trial.None? || t.trial.None?;
              var retries := if toRecord && s.retryRevision != aim then map[] else s.retries;
              var plan := PlanFor(sight.rendering, sight.listing, s.world, sight.probe);
              && t.turns == s.turns + [Aim(aim.value, false)]
              && t.world == ResultOf(Event.Unattended(sight.rendering, sight.listing, sight.probe, retries, a.now,
                                                      a.luck), s.world).world
              && t.retries == UnattendedPlan(plan, retries, a.now).1
              && t.retryRevision == (if toRecord then aim else s.retryRevision)
  {}

  /** A tick drops a trial exactly when another declaration was recorded since it began, and
      leaves it as it is otherwise. */
  lemma {:induction false} TickDrops(s: State, a: Answers)
    ensures var t := Next(s, Periodic(a));
            var overtaken := s.trial.Some? && a.loads && s.world.accepted.Some? && s.world.accepted != s.base;
            && t.trial == (if overtaken then None else s.trial) && t.expiry == (if overtaken then None else s.expiry)
            && t.base == s.base && t.deadline == s.deadline && t.timers == s.timers
  {}

  /** A submission drops the trial, and runs exactly one turn, with the bytes submitted and the
      retries anew, if they can be seen. */
  lemma {:induction false} SubmissionRuns(s: State, bytes: string, a: Answers)
    ensures var t := Next(s, SubmitAsked(bytes, a));
            && t.trial == None && t.expiry == None && t.timers == s.timers
            && if a.sees(bytes).None? then NoTurn(s, t)
               else
                 && t.turns == s.turns + [Aim(bytes, true)]
                 && t.world == WorldAsked(s.world, a.sees(bytes).value, Some(bytes), a.luck)
                 && t.retries == map[] && t.retryRevision == Some(bytes)
  {}

  /** A trial with a deadline is held until it, or until now if that is later, and exactly one
      turn is run toward its bytes if they can be seen; without one nothing happens. */
  lemma {:induction false} TrialRuns(s: State, bytes: string, deadline: Option<int>, a: Answers)
    ensures var t := Next(s, TrialAsked(bytes, deadline, a));
            if deadline.None? then t == s
            else
              && t.trial == Some(bytes) && t.deadline == deadline.value
              && t.base == (if a.loads then s.world.accepted else None)
              && t.expiry == Some(|s.timers|)
              && t.timers == s.timers + [if deadline.value < a.now then a.now else deadline.value]
              && if a.sees(bytes).None? then NoTurn(s, t) else RanAttended(s, t, bytes, a.sees(bytes).value, a.luck)
  {}

  /** A confirmation makes the trial the record and drops it, if there is one and it can be
      written or is recorded already; and nothing else. */
  lemma {:induction false} ConfirmationRecords(s: State, written: bool)
    ensures var t := Next(s, ConfirmAsked(written));
            if s.trial.Some? && (written || s.world.accepted == s.trial)
            then t == s.(trial := None, expiry := None, world := s.world.(accepted := s.trial))
            else t == s
  {}

  /** A cancellation, or its own timer, drops a trial and runs exactly one turn toward the record
      if that can be loaded and seen; any other timer, or a cancellation of nothing, does
      nothing. */
  lemma {:induction false} EndRuns(s: State, e: Occasion)
    requires Holding(s) && (e.CancelAsked? || e.TimerFires?)
    ensures var t, a := Next(s, e), e.answers;
            var record := if a.loads then s.world.accepted else None;
            if s.trial.None? || (e.TimerFires? && s.expiry != Some(e.timer)) then t == s
            else
              && t.trial == None && t.expiry == None && t.timers == s.timers
              && if record.None? || a.sees(record.value).None? then NoTurn(s, t)
                 else RanAttended(s, t, record.value, a.sees(record.value).value, a.luck)
  {}

  // ----- over a whole run ------------------------------------------------------------

  ghost predicate Running(states: seq<State>, events: seq<Occasion>) {
    && |states| == |events| + 1
    && forall i :: 0 <= i < |events| ==> Possible(states[i], events[i]) && states[i + 1] == Next(states[i], events[i])
  }

  ghost predicate Fresh(s: State) { s.trial == None && s.expiry == None && s.timers == [] && Kept(s.world) }

  lemma {:induction false} AlwaysHolds(states: seq<State>, events: seq<Occasion>, i: nat)
    requires Running(states, events) && Fresh(states[0]) && i < |states|
    ensures Holding(states[i]) && Kept(states[i].world)
  {
    if i > 0 {
      AlwaysHolds(states, events, i - 1);
      NextHolds(states[i - 1], events[i - 1]);
      NextKeeps(states[i - 1], events[i - 1]);
    }
  }

  /** The trial held at i is the one event j asked for, and was held with its own timer since. */
  ghost predicate HeldSince(states: seq<State>, events: seq<Occasion>, j: nat, i: nat)
    requires j < i < |states| && |states| == |events| + 1
  {
    && events[j].TrialAsked? && events[j].deadline.Some? && states[i].trial == Some(events[j].bytes)
    && states[i].expiry == Some(|states[j].timers|) && states[i].deadline == events[j].deadline.value
    && forall k :: j < k <= i ==> states[k].trial == states[i].trial && states[k].expiry == states[i].expiry
  }

  /** What one event can do to the trial, the timers and the record. */
  ghost predicate Moves(s: State, e: Occasion, t: State) {
    && |s.timers| <= |t.timers|
    && (t.trial.Some? ==> t.world.accepted == s.world.accepted)
    && if e.TrialAsked? && e.deadline.Some? then
         t.trial == Some(e.bytes) && t.expiry == Some(|s.timers|)
         && t.deadline == e.deadline.value && |s.timers| < |t.timers|
       else
         t.trial.Some? ==> t.trial == s.trial && t.expiry == s.expiry && t.deadline == s.deadline
  }

  lemma {:induction false} NextMoves(s: State, e: Occasion)
    ensures Moves(s, e, Next(s, e))
  {
    match e
    case Periodic(a) => ClockLeaves(AfterPlainApply(s, a), a);
    case SubmitAsked(bytes, a) => SubmissionRuns(s, bytes, a);
    case TrialAsked(bytes, deadline, a) =>
      RecordMoves(s, e);
      TrialRuns(s, bytes, deadline, a);
    case ConfirmAsked(written) => ConfirmationRecords(s, written);
    case CancelAsked(a) => RevertLeaves(Dropped(s), a);
    case TimerFires(timer, a) => RevertLeaves(Dropped(s), a);
    case HostMoves(event) =>
  }

  ghost predicate Moving(states: seq<State>, events: seq<Occasion>) {
    && |states| == |events| + 1
    && forall i {:trigger states[i]} :: 0 <= i < |events| ==> Moves(states[i], events[i], states[i + 1])
  }

  lemma {:induction false} RunMoves(states: seq<State>, events: seq<Occasion>)
    requires Running(states, events)
    ensures Moving(states, events)
  {
    forall i {:trigger states[i]} | 0 <= i < |events| ensures Moves(states[i], events[i], states[i + 1]) {
      NextMoves(states[i], events[i]);
    }
  }

  lemma {:induction false} HeldFromItsRequest(states: seq<State>, events: seq<Occasion>, i: nat) returns (j: nat)
    requires Moving(states, events) && states[0].trial.None? && i < |states| && states[i].trial.Some?
    ensures j < i && HeldSince(states, events, j, i)
  {
    var e := events[i - 1];
    assert Moves(states[i - 1], e, states[i]);
    if e.TrialAsked? && e.deadline.Some? {
      j := i - 1;
    } else {
      j := HeldFromItsRequest(states, events, i - 1);
    }
  }

  /** A timer only ever ends the trial it was started for, held without a break since it was
      asked for, and never before that trial's deadline. */
  lemma {:induction false} TimerEndsItsOwnTrial(states: seq<State>, events: seq<Occasion>, i: nat)
    requires Running(states, events) && Fresh(states[0]) && i < |events|
    requires events[i].TimerFires? && states[i + 1].trial != states[i].trial
    ensures exists j :: 0 <= j < i && HeldSince(states, events, j, i) && events[i].timer == |states[j].timers|
              && events[j].deadline.value <= events[i].answers.now
  {
    AlwaysHolds(states, events, i);
    TrialEnds(states[i], events[i]);
    RunMoves(states, events);
    var j := HeldFromItsRequest(states, events, i);
  }

  lemma {:induction false} TimersGrow(states: seq<State>, events: seq<Occasion>, j: nat, i: nat)
    requires Moving(states, events) && j < i < |states| && events[j].TrialAsked? && events[j].deadline.Some?
    ensures |states[j].timers| < |states[i].timers|
    decreases i
  {
    assert Moves(states[i - 1], events[i - 1], states[i]);
    if i > j + 1 { TimersGrow(states, events, j, i - 1); }
  }

  lemma {:induction false} HeldBefore(states: seq<State>, events: seq<Occasion>, j: nat, i: nat)
    requires Moving(states, events) && j + 1 < i < |states| && HeldSince(states, events, j, i)
    ensures HeldSince(states, events, j, i - 1)
  {
    assert Moves(states[i - 1], events[i - 1], states[i]);
    TimersGrow(states, events, j, i - 1);
  }

  lemma {:induction false} RecordRests(states: seq<State>, events: seq<Occasion>, j: nat, i: nat)
    requires Moving(states, events) && j < i < |states| && HeldSince(states, events, j, i)
    ensures states[i].world.accepted == states[j].world.accepted
    decreases i
  {
    assert Moves(states[i - 1], events[i - 1], states[i]);
    if i > j + 1 {
      HeldBefore(states, events, j, i);
      RecordRests(states, events, j, i - 1);
    }
  }

  /** As long as one trial is held the record is what it was when the trial was asked for. */
  lemma {:induction false} RecordRestsDuringTrial(states: seq<State>, events: seq<Occasion>, j: nat, i: nat)
    requires Running(states, events) && j < i < |states| && HeldSince(states, events, j, i)
    ensures states[i].world.accepted == states[j].world.accepted
  {
    RunMoves(states, events);
    RecordRests(states, events, j, i);
  }
}
