/** What every turn leaves on disk, path by path, in terms of the declaration and of what was
    there. */
module DiskFacts {
  import opened Orders
  import opened Host
  import opened Planning
  import opened Turns
  import opened PlanFacts
  import opened NothingLost
  import opened Safety
  import opened Idempotence
  import opened TableFacts

  // ----- whose a file is -------------------------------------------------------------

  /** The first line says that regied wrote the file, or the one after an interpreter's. */
  ghost predicate Signed(c: Content) {
    exists i :: 0 <= i < |c.lines| && c.lines[i] == OWNERSHIP_MARKER
      && (i == 0 || (i == 1 && HasPrefix(c.lines[0], "#!")))
  }

  /** networkd's files are regied's by their name, pppd's and dnsmasq's by what they say, units
      and hooks by both. */
  ghost predicate Branded(p: Path, c: Content) {
    && (p.dir == NetworkdDir ==> HasPrefix(p.name, "50-regied-"))
    && (p.dir in {UnitDir, UpHookDir, DownHookDir} ==> HasPrefix(p.name, "regied-"))
    && (p.dir != NetworkdDir ==> Signed(c))
  }

  lemma {:induction false} OursIsBranded(p: Path, c: Content)
    ensures IsOurs(p, c) <==> Branded(p, c)
  {
    if HasOwnershipMarker(c) {
      assert c.lines[0] == OWNERSHIP_MARKER || c.lines[1] == OWNERSHIP_MARKER;
    }
  }

  /** A file of regied's that is listed, is there, and that the declaration neither asks for nor
      withholds. */
  ghost predicate LeftOver(r: Rendering, listing: seq<Path>, w: World, p: Path) {
    p in listing && p in w.disk && !HasArtifact(r, p) && p !in r.withheld && Branded(p, w.disk[p])
  }

  lemma {:induction false} LeftOverIsReclaimed(r: Rendering, listing: seq<Path>, w: World, p: Path)
    ensures LeftOver(r, listing, w, p) <==> p in listing && ToReclaim(p, w.disk, Desired(r))
  {
    if p in w.disk { OursIsBranded(p, w.disk[p]); }
    assert p in Desired(r) <==> p in r.withheld || HasArtifact(r, p);
  }

  // ----- what a plan says of one path ------------------------------------------------

  /** The plan's change of a path: none, the writing of its artifact where it is missing or
      differs, or its removal. */
  lemma {:induction false} ChangeAt(r: Rendering, listing: seq<Path>, w: World, c: FileChange)
    requires c in Files(r, listing, w.disk)
    ensures c.deferred <==> c.path.dir == UnitDir
    ensures c.kind == Remove <==> LeftOver(r, listing, w, c.path)
    ensures c.kind != Remove ==> exists a :: a in r.artifacts && a.path == c.path && a.content == c.content
    ensures WasWritten(c) <==> HasArtifact(r, c.path) && !(c.path in w.disk && w.disk[c.path] == c.content)
    ensures c.kind == Create <==> HasArtifact(r, c.path) && c.path !in w.disk
    ensures c.hadBefore <==> c.path in w.disk
  {
    FileMembers(r, listing, w.disk);
    LeftOverIsReclaimed(r, listing, w, c.path);
    if a :| a in r.artifacts && c == Compare(a, w.disk) { assert HasArtifact(r, c.path); }
  }

  lemma {:induction false} ChangesThere(r: Rendering, listing: seq<Path>, w: World, p: Path)
    ensures (exists c :: c in Files(r, listing, w.disk) && c.path == p) <==>
              HasArtifact(r, p) || LeftOver(r, listing, w, p)
  {
    FileMembers(r, listing, w.disk);
    LeftOverIsReclaimed(r, listing, w, p);
    if a :| a in r.artifacts && a.path == p { assert Compare(a, w.disk) in Files(r, listing, w.disk); }
    if LeftOver(r, listing, w, p) { assert RemovalOf(p) in Files(r, listing, w.disk); }
  }

  // ----- staging and commit at one path ----------------------------------------------

  /** One path holds the same in both. */
  predicate As(w: World, v: World, p: Path) {
    (p in w.disk <==> p in v.disk) && (p in w.disk ==> w.disk[p] == v.disk[p])
  }

  /** A change that is made at once, and has been. */
  predicate Made(c: FileChange, after: World) {
    if WasWritten(c) then c.path in after.disk && after.disk[c.path] == c.content
    else c.kind == Remove && !c.deferred && c.path !in after.disk
  }

  /** Wherever staging stops, each path is as it was or one of the changes of it has been made. */
  lemma {:induction false} StagedSoFar(w: World, files: seq<FileChange>, i: nat, ok: nat -> bool, p: Path)
    requires i <= |files|
    ensures var after := StageFrom(w, files, i, ok).0;
            As(w, after, p) || exists c :: c in files && c.path == p && Made(c, after)
    decreases |files| - i
  {
    if i < |files| && !(Touches(files[i]) && !ok(i)) {
      var next := StageOne(w, files[i]);
      StagedSoFar(next, files, i + 1, ok, p);
      assert files[i] in files;
    }
  }

  lemma {:induction false} CommittedDisk(w: World, steps: seq<Step>, i: nat, ends: nat -> Outcome, ran: set<StepKey>,
      refused: seq<Step>, p: Path)
    requires i <= |steps|
    ensures var c := CommitFrom(w, steps, i, ends, ran, refused);
            && (p in c.world.disk ==> As(w, c.world, p))
            && (p in w.disk && p !in c.world.disk ==> exists s :: s in steps && s.action == RemoveFile(p))
            && (c.stopped.None? && (exists k :: i <= k < |steps| && steps[k].action == RemoveFile(p)) ==>
                  p !in c.world.disk)
    decreases |steps| - i
  {
    if i < |steps| {
      var s := steps[i];
      assert s in steps;
      EffectDisk(w, s.action, p);
      if ends(i) == Done {
        CommittedDisk(Effect(w, s.action), steps, i + 1, ends, ran + {KeyOf(s)}, refused, p);
      } else if s.action.WriteRecord? {
        CommittedDisk(w, steps, i + 1, ends, ran, refused + [s], p);
      }
    }
  }

  lemma {:induction false} EffectDisk(w: World, a: Action, p: Path)
    ensures if a == RemoveFile(p) then p !in Effect(w, a).disk else As(w, Effect(w, a), p)
  {
    if a.Run? { assert CommandEffect(w, a.command) == Do(w, DeedOf(a.command)); }
  }

  // ----- the steps that take files away ----------------------------------------------

  /** Only an attended turn takes a file away by a step, and then a unit that is left over. */
  lemma {:induction false} RemovalsPlanned(e: Event, w: World, p: Path)
    requires IsTurn(e)
    ensures (exists s :: s in PlanOf(e, w).steps && s.action == RemoveFile(p)) <==>
              e.Attended? && p.dir == UnitDir && LeftOver(e.rendering, e.listing, w, p)
  {
    var plan, full := PlanOf(e, w), FullPlan(e, w);
    if s :| s in plan.steps && s.action == RemoveFile(p) {
      PlanKeepsSteps(e, w);
      if e.Unattended? { FilterKeeps(full.steps, 0, e.now, Filtered([], [], e.retries, {})); }
      PartsOf(e.rendering, e.listing, w, e.probe, s);
      RemovalOrigin(full, e.rendering, w, e.probe, s);
      var c :| c in full.files && c.deferred && c.kind == Remove && c.path == p;
      ChangeAt(e.rendering, e.listing, w, c);
    }
    if e.Attended? && p.dir == UnitDir && LeftOver(e.rendering, e.listing, w, p) {
      ChangesThere(e.rendering, e.listing, w, p);
      var c :| c in full.files && c.path == p;
      ChangeAt(e.rendering, e.listing, w, c);
      RemovalsArePlanned(e.rendering, e.listing, w, e.probe, c);
      assert Step(PROCESSES, RemoveFile(p), false).action == RemoveFile(p);
    }
  }

  // ----- a turn at one path ----------------------------------------------------------

  ghost predicate AsAsked(r: Rendering, v: World, p: Path) {
    p in v.disk && exists a :: a in r.artifacts && a.path == p && a.content == v.disk[p]
  }

  /** The plan's own changes are those of the comparison, but that an unattended turn defers
      every removal. */
  lemma {:induction false} OwnChanges(e: Event, w: World, c: FileChange)
    requires IsTurn(e) && c in PlanOf(e, w).files
    ensures exists d :: d in FullPlan(e, w).files
                && c == (if e.Unattended? && d.kind == Remove then d.(deferred := true) else d)
  {
    var k :| 0 <= k < |PlanOf(e, w).files| && PlanOf(e, w).files[k] == c;
    assert FullPlan(e, w).files[k] in FullPlan(e, w).files;
  }

  lemma {:induction false} ChangesKept(e: Event, w: World, d: FileChange)
    requires IsTurn(e) && d in FullPlan(e, w).files
    ensures (if e.Unattended? && d.kind == Remove then d.(deferred := true) else d) in PlanOf(e, w).files
  {
    var k :| 0 <= k < |FullPlan(e, w).files| && FullPlan(e, w).files[k] == d;
    if e.Unattended? { assert PlanOf(e, w).files[k] == Deferring(FullPlan(e, w).files)[k]; }
  }

  /** What staging made of a path: its artifact's content, or nothing where an attended turn
      found it left over. */
  lemma {:induction false} MadeMeans(e: Event, w: World, c: FileChange, after: World)
    requires IsTurn(e) && c in PlanOf(e, w).files && Made(c, after)
    ensures AsAsked(e.rendering, after, c.path)
         || (e.Attended? && LeftOver(e.rendering, e.listing, w, c.path) && c.path !in after.disk)
  {
    OwnChanges(e, w, c);
    var d :| d in FullPlan(e, w).files && c == (if e.Unattended? && d.kind == Remove then d.(deferred := true) else d);
    ChangeAt(e.rendering, e.listing, w, d);
  }

  lemma {:induction false} TurnAt(w: World, plan: Plan, declaration: Option<string>, luck: Luck, p: Path)
    ensures var after := Turn(w, plan, declaration, luck).world;
            || As(w, after, p) || As(StageFrom(w, plan.files, 0, luck.stage).0, after, p)
            || (p !in after.disk && exists s :: s in plan.steps && s.action == RemoveFile(p))
  {
    if !Empty(plan) {
      var staged := StageFrom(w, plan.files, 0, luck.stage).0;
      CommittedDisk(Accepting(staged, declaration), plan.steps, 0, luck.commit, {}, [], p);
    }
  }

  /** After any turn, however it ends, each path is as it was, or as the declaration asks, or
      gone: and that only by an attended turn, when it was left over. */
  lemma {:induction false} DiskAfterAnyTurn(e: Event, w: World, p: Path)
    requires IsTurn(e)
    ensures var after := ResultOf(e, w).world;
            || As(w, after, p) || AsAsked(e.rendering, after, p)
            || (e.Attended? && LeftOver(e.rendering, e.listing, w, p) && p !in after.disk)
  {
    var plan := PlanOf(e, w);
    var staged := StageFrom(w, plan.files, 0, e.luck.stage).0;
    TurnAt(w, plan, DeclarationOf(e), e.luck, p);
    RemovalsPlanned(e, w, p);
    StagedSoFar(w, plan.files, 0, e.luck.stage, p);
    if c :| c in plan.files && c.path == p && Made(c, staged) { MadeMeans(e, w, c, staged); }
  }

  // ----- past staging ----------------------------------------------------------------

  /** Each change that is to be made at once has been. */
  ghost predicate AllMade(files: seq<FileChange>, after: World, p: Path) {
    forall c :: c in files && c.path == p && Touches(c) ==> Made(c, after)
  }

  lemma {:induction false} WholeStage(w: World, files: seq<FileChange>, ok: nat -> bool, p: Path)
    requires Consistent(files) && StageFrom(w, files, 0, ok).1
    ensures AllMade(files, StageFrom(w, files, 0, ok).0, p)
  {
    StageDisk(w, files, 0, ok, p);
    forall c | c in files && c.path == p && Touches(c) ensures Made(c, StageFrom(w, files, 0, ok).0) {
      var k :| 0 <= k < |files| && files[k] == c;
    }
  }

  lemma {:induction false} ConsistentPlan(e: Event, w: World)
    requires IsTurn(e) && DistinctPaths(e.rendering.artifacts)
    ensures Consistent(PlanOf(e, w).files)
  {
    FilesConsistent(e.rendering, e.listing, w.disk);
    forall c, d | c in PlanOf(e, w).files && d in PlanOf(e, w).files && c.path == d.path ensures c == d {
      OwnChanges(e, w, c);
      OwnChanges(e, w, d);
    }
  }

  lemma {:induction false} PastStaging(w: World, plan: Plan, declaration: Option<string>, luck: Luck, p: Path)
    requires Turn(w, plan, declaration, luck).ending != StoppedInStaging && Consistent(plan.files)
    ensures var after := Turn(w, plan, declaration, luck).world;
            (forall s :: s in plan.steps ==> s.action != RemoveFile(p)) ==> AllMade(plan.files, after, p)
    ensures var t := Turn(w, plan, declaration, luck);
            && (p !in StageFrom(w, plan.files, 0, luck.stage).0.disk ==> p !in t.world.disk || Empty(plan))
            && (t.ending == Succeeded && (exists s :: s in plan.steps && s.action == RemoveFile(p)) ==>
                  p !in t.world.disk)
  {
    if !Empty(plan) {
      var (staged, ok) := StageFrom(w, plan.files, 0, luck.stage);
      WholeStage(w, plan.files, luck.stage, p);
      CommittedDisk(Accepting(staged, declaration), plan.steps, 0, luck.commit, {}, [], p);
      if s :| s in plan.steps && s.action == RemoveFile(p) {
        var k :| 0 <= k < |plan.steps| && plan.steps[k] == s;
        assert plan.steps[k].action == RemoveFile(p);
      }
    }
  }

  lemma {:induction false} ArtifactMade(e: Event, w: World, a: Artifact)
    requires IsTurn(e) && DistinctPaths(e.rendering.artifacts) && a in e.rendering.artifacts
    requires ResultOf(e, w).ending != StoppedInStaging
    ensures a.path in ResultOf(e, w).world.disk && ResultOf(e, w).world.disk[a.path] == a.content
  {
    var change, p := Compare(a, w.disk), a.path;
    assert HasArtifact(e.rendering, p);
    FileMembers(e.rendering, e.listing, w.disk);
    assert change in FullPlan(e, w).files;
    ChangesKept(e, w, change);
    ConsistentPlan(e, w);
    RemovalsPlanned(e, w, p);
    PastStaging(w, PlanOf(e, w), DeclarationOf(e), e.luck, p);
    if !Touches(change) { Untouched(e, w, a); }
  }

  /** An artifact that was there already is neither written nor taken away. */
  lemma {:induction false} Untouched(e: Event, w: World, a: Artifact)
    requires IsTurn(e) && DistinctPaths(e.rendering.artifacts) && a in e.rendering.artifacts
    requires a.path in w.disk && w.disk[a.path] == a.content
    ensures a.path in ResultOf(e, w).world.disk && ResultOf(e, w).world.disk[a.path] == a.content
  {
    assert HasArtifact(e.rendering, a.path);
    DiskAfterAnyTurn(e, w, a.path);
    if AsAsked(e.rendering, ResultOf(e, w).world, a.path) { OneArtifact(e.rendering.artifacts, a, a.path); }
  }

  lemma {:induction false} OneArtifact(artifacts: seq<Artifact>, a: Artifact, p: Path)
    requires DistinctPaths(artifacts) && a in artifacts && a.path == p
    ensures forall b :: b in artifacts && b.path == p ==> b == a
  {}

  /** What a turn past staging leaves at one path, of a declaration and of what was there. */
  ghost predicate LeavesAt(r: Rendering, listing: seq<Path>, w: World, after: World, attended: bool, succeeded: bool,
      p: Path) {
    && (forall a :: a in r.artifacts && a.path == p ==> p in after.disk && after.disk[p] == a.content)
    && (!HasArtifact(r, p) && p in after.disk ==> As(w, after, p))
    && (p in w.disk && p !in after.disk ==> attended && LeftOver(r, listing, w, p))
    && (attended && LeftOver(r, listing, w, p) && (succeeded || p.dir != UnitDir) ==> p !in after.disk)
  }

  lemma {:induction false} LeavesIs(r: Rendering, listing: seq<Path>, w: World, after: World, attended: bool,
      succeeded: bool, p: Path)
    requires forall a :: a in r.artifacts && a.path == p ==> p in after.disk && after.disk[p] == a.content
    requires As(w, after, p) || AsAsked(r, after, p) || (attended && LeftOver(r, listing, w, p) && p !in after.disk)
    requires attended && LeftOver(r, listing, w, p) && (succeeded || p.dir != UnitDir) ==> p !in after.disk
    ensures LeavesAt(r, listing, w, after, attended, succeeded, p)
  {
    if AsAsked(r, after, p) { assert HasArtifact(r, p); }
  }

  /** After every turn that gets past staging, attended or not, each path the declaration asks
      for holds what it asks; any other is as it was, or is gone: an attended turn takes away
      what was left over, units once it succeeds, and nothing else. */
  lemma {:induction false} DiskAfterTurn(e: Event, w: World, p: Path)
    requires IsTurn(e) && DistinctPaths(e.rendering.artifacts) && ResultOf(e, w).ending != StoppedInStaging
    ensures var t := ResultOf(e, w);
            LeavesAt(e.rendering, e.listing, w, t.world, e.Attended?, t.ending == Succeeded, p)
  {
    var t := ResultOf(e, w);
    forall a | a in e.rendering.artifacts && a.path == p ensures p in t.world.disk && t.world.disk[p] == a.content {
      ArtifactMade(e, w, a);
    }
    DiskAfterAnyTurn(e, w, p);
    if e.Attended? && LeftOver(e.rendering, e.listing, w, p) && (t.ending == Succeeded || p.dir != UnitDir) {
      LeftOverGoes(e, w, p);
    }
    LeavesIs(e.rendering, e.listing, w, t.world, e.Attended?, t.ending == Succeeded, p);
  }

  lemma {:induction false} RemovalGoes(w: World, plan: Plan, declaration: Option<string>, luck: Luck, c: FileChange)
    requires c in plan.files && c.kind == Remove && Consistent(plan.files)
    requires Turn(w, plan, declaration, luck).ending != StoppedInStaging
    requires c.deferred ==> TakesAway(plan.steps, c.path) && Turn(w, plan, declaration, luck).ending == Succeeded
    ensures c.path !in Turn(w, plan, declaration, luck).world.disk
  {
    PastStaging(w, plan, declaration, luck, c.path);
    if !c.deferred { WholeStage(w, plan.files, luck.stage, c.path); }
  }

  ghost predicate TakesAway(steps: seq<Step>, p: Path) { exists s :: s in steps && s.action == RemoveFile(p) }

  lemma {:induction false} RemovalOfLeftOver(r: Rendering, listing: seq<Path>, w: World, probe: Probe, p: Path)
      returns (c: FileChange)
    requires LeftOver(r, listing, w, p)
    ensures c in PlanFor(r, listing, w, probe).files && c.path == p && c.kind == Remove
    ensures c.deferred ==> p.dir == UnitDir && TakesAway(PlanFor(r, listing, w, probe).steps, p)
  {
    ChangesThere(r, listing, w, p);
    c :| c in Files(r, listing, w.disk) && c.path == p;
    ChangeAt(r, listing, w, c);
    if c.deferred {
      RemovalsArePlanned(r, listing, w, probe, c);
      assert Step(PROCESSES, RemoveFile(p), false).action == RemoveFile(p);
    }
  }

  lemma {:induction false} LeftOverGoes(e: Event, w: World, p: Path)
    requires e.Attended? && DistinctPaths(e.rendering.artifacts) && LeftOver(e.rendering, e.listing, w, p)
    requires ResultOf(e, w).ending != StoppedInStaging && (ResultOf(e, w).ending == Succeeded || p.dir != UnitDir)
    ensures p !in ResultOf(e, w).world.disk
  {
    var c := RemovalOfLeftOver(e.rendering, e.listing, w, e.probe, p);
    ConsistentPlan(e, w);
    RemovalGoes(w, FullPlan(e, w), e.declaration, e.luck, c);
  }

  /** So all that a turn past staging leaves different is what is left over: of an unattended
      one that, all of it, and of an attended one units, unless it succeeded. */
  lemma {:induction false} OnlyLeftOversDiffer(e: Event, w: World, again: seq<Path>, c: FileChange)
    requires IsTurn(e) && DistinctPaths(e.rendering.artifacts) && ResultOf(e, w).ending != StoppedInStaging
    requires c in Files(e.rendering, again, ResultOf(e, w).world.disk)
    ensures c.kind == Unchanged || LeftOver(e.rendering, again, ResultOf(e, w).world, c.path)
  {
    ChangeAt(e.rendering, again, ResultOf(e, w).world, c);
    if c.kind != Remove {
      var a :| a in e.rendering.artifacts && a.path == c.path && a.content == c.content;
      ArtifactMade(e, w, a);
    }
  }

  // ----- the order files are written in ----------------------------------------------

  /** The files of a plan, and so their staging, are in the order of their paths as text. */
  lemma {:induction false} FilesInOrder(e: Event, w: World, i: nat, j: nat)
    requires IsTurn(e) && i < j < |PlanOf(e, w).files|
    ensures TextLe(PathText(PlanOf(e, w).files[i].path), PathText(PlanOf(e, w).files[j].path))
  {
    var all := Compared(e.rendering.artifacts, w.disk) + Reclaimed(e.listing, w.disk, Desired(e.rendering));
    TextOrder();
    forall a, b ensures PathOrder(a, b) || PathOrder(b, a) { TextTotal(PathText(a.path), PathText(b.path)); }
    SortSorted(all, PathOrder);
    assert FullPlan(e, w).files == Sort(all, PathOrder);
    assert PathOrder(FullPlan(e, w).files[i], FullPlan(e, w).files[j]);
  }
}
