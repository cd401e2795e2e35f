/** The reconciler's loop over one database: read; create if it was not found; otherwise
    update if there is a delta (pkg/resource/database/manager.go:143-146). Any call of any
    pass may fail; nothing else writes to the database. */
module Convergence {
  import opened Types
  import opened Tags
  import opened Conditions
  import opened Glue
  import opened TagSync
  import opened Deltas
  import opened Resource
  import opened Sdk
  import opened Manager
  import opened RoundTrip
  import opened Repairs
  import opened Iteration

  // ---------- one pass ----------

  /** What a pass changes: the world, and the tags of the desired spec. */
  datatype State = State(w: World, d: DatabaseSpec)

  /** What no pass changes: the manager's identity, the metadata of the desired resource, and whether a
      True Terminal entry before the last one of its condition list hides "not found" from the caller. */
  datatype Context = Context(id: Identity, md: Option<ResourceMetadata>, hidden: bool)

  function ContextOf(rm: ResourceManager, desired: Database): Context
    reads desired`metadata, desired`conditions, desired.Entries()
  {
    Context(rm.Id(), desired.metadata, BuriedTrue(desired.Conds(), TypeTerminal))
  }

  function Read(env: Env, c: Context, s: State): (r: (World, Result<Observation>))
    ensures r.1.Ok? ==> Complete(r.1.value.metadata)
  {
    Find(env, c.id, s.w, s.d, c.md)
  }

  /** The world and the desired spec after one pass. A hidden "not found" ends the pass. */
  function Pass(env: Env, c: Context, s: State): State {
    var (w1, answer) := Read(env, c, s);
    match answer
    case Err(e) => State(if e == NotFound && !c.hidden then CreateDb(env, w1, s.d).0 else w1, s.d)
    case Ok(observed) =>
      var d1 := MirroredSpec(s.d, observed.spec);
      State(Corrected(env, w1, d1, observed), d1)
  }

  /** The world after the update of a pass, if there is any drift. */
  function Corrected(env: Env, w: World, d: DatabaseSpec, observed: Observation): World
    requires Complete(observed.metadata)
  {
    var delta := DeltaPaths(d, observed.spec);
    if delta == [] then w
    else UpdateDb(env, w, d, observed.spec, observed.metadata.arn.value, delta).0
  }

  /** One pass over the resource manager's operations. */
  method Reconcile(rm: ResourceManager, desired: Database)
    requires Faithful(rm.sdkapi.env, rm.sdkapi.w) && PanicFree(desired.spec)
    modifies rm.sdkapi, desired`spec
    ensures State(rm.sdkapi.w, desired.spec) ==
            Pass(rm.sdkapi.env, old(ContextOf(rm, desired)), State(old(rm.sdkapi.w), old(desired.spec)))
  {
    var latest, err := ReadOne(rm, desired);
    if err == Some(NotFound) {
      var _, _ := Create(rm, desired);
    } else if err.None? {
      Correct(rm, desired, latest);
    }
  }

  /** The second half of a pass. */
  method Correct(rm: ResourceManager, desired: Database, latest: Database)
    requires PanicFree(desired.spec) && latest.metadata.Some? && Complete(latest.metadata.value)
    modifies rm.sdkapi
    ensures var observed := Observation(latest.spec, latest.metadata.value);
            rm.sdkapi.w == Corrected(rm.sdkapi.env, old(rm.sdkapi.w), desired.spec, observed)
  {
    var delta := NewResourceDelta(desired, latest);
    if delta.differences != [] {
      var _, _ := Update(rm, desired, latest, delta);
    }
  }

  /** What every pass starts from and leaves behind. */
  ghost predicate Ready(env: Env, c: Context, s: State) {
    Faithful(env, s.w) && PanicFree(s.d) && Located(env, c.id, c.md)
  }

  lemma CorrectedInStages(env: Env, w: World, d: DatabaseSpec, observed: Observation)
    requires Exists(env, w, d) && Complete(observed.metadata) && observed.metadata.arn.value == ArnOfSpec(env, d)
    requires observed.spec == ReadBack(env, w, d)
    ensures Corrected(env, w, d, observed) == Stages(env, w, d)
  {
    PointerThenPlain(TagsAt(w, ArnOfSpec(env, d)));
    QuestionsOfDelta(d, observed.spec);
    DriftByParts(d, observed.spec);
  }

  /** A pass reads without writing; if that succeeds it goes through the stages with the mirrored
      spec, if the database was not found it tries to create it, and otherwise it ends there. */
  lemma PassInStages(env: Env, c: Context, s: State)
    requires Ready(env, c, s)
    ensures var (w1, answer) := Read(env, c, s);
            var (w, d, t) := (s.w, s.d, Pass(env, c, s));
            var wanted := WantedTags(d, TagsAt(w, ArnOfSpec(env, d)));
            && w1 == w.(clock := w1.clock) && w.clock <= w1.clock
            && t.d == d.(tags := t.d.tags)
            && WantedTags(t.d, TagsAt(w, ArnOfSpec(env, d))) == wanted
            && (answer.Ok? ==>
                  && Exists(env, w, d) && TagValues(t.d.tags) == wanted
                  && Current(env, w1, t.d) && t.w == Stages(env, w1, t.d))
            && (answer.Err? ==>
                  && t.d == d
                  && t.w == if answer.error == NotFound && !c.hidden then CreateDb(env, w1, d).0 else w1)
  {
    var w, d := s.w, s.d;
    FindIsReadOnly(env, c.id, w, d, c.md);
    FindReadsBack(env, c.id, w, d, c.md);
    var (w1, answer) := Read(env, c, s);
    if answer.Ok? {
      var d1 := MirroredSpec(d, answer.value.spec);
      MirrorIsWanted(env, w, d);
      SameButMirrored(env, w, w1, d, d1);
      CorrectedInStages(env, w1, d1, answer.value);
    }
  }

  /** The read of a pass says that the database is missing: the spec has no name, or GetDatabase finds nothing
      or is struck by an error that says so, or a call is struck by NotFound itself. */
  predicate SaysMissing(env: Env, s: State) {
    || s.d.name.None?
    || match env.faults(s.w.clock)
       case Some(e) => e == NotFound || e.ApiCode() == Some("EntityNotFoundException")
       case None => !Exists(env, s.w, s.d) || env.faults(s.w.clock + 1) == Some(NotFound)
  }

  /** A pass makes a create call exactly when its read says so and that is not hidden from it; no other
      error, throttling for one, leads to a create. */
  lemma CreatesExactly(env: Env, c: Context, s: State)
    requires Ready(env, c, s)
    ensures var now := Pass(env, c, s).w.log;
            && s.w.log <= now
            && ((exists i :: |s.w.log| <= i < |now| && now[i].call.CreateCall?) <==> SaysMissing(env, s) && !c.hidden)
  {
    var (w1, answer) := Read(env, c, s);
    var t := Pass(env, c, s);
    PassInStages(env, c, s);
    ReadSaysMissing(env, c, s);
    if answer.Ok? {
      StagesCreateNothing(env, w1, t.d);
    } else if answer.error == NotFound && !c.hidden {
      assert t.w.log[|s.w.log|].call.CreateCall?;
    }
  }

  lemma ReadSaysMissing(env: Env, c: Context, s: State)
    requires Ready(env, c, s)
    ensures Read(env, c, s).1 == Err(NotFound) <==> SaysMissing(env, s)
  {
    ReadErrors(env, c.id, s.w, s.d, c.md);
    FindReadsBack(env, c.id, s.w, s.d, c.md);
    if Exists(env, s.w, s.d) && env.faults(s.w.clock).None? && env.faults(s.w.clock + 1).None? {
      CalmReadFinds(env, c, s);
    }
  }

  lemma CalmReadFinds(env: Env, c: Context, s: State)
    requires Ready(env, c, s) && Exists(env, s.w, s.d)
    requires env.faults(s.w.clock).None? && env.faults(s.w.clock + 1).None?
    ensures Read(env, c, s).1.Ok?
  {
    FindIsReadOnly(env, c.id, s.w, s.d, c.md);
    FindReadsBack(env, c.id, s.w, s.d, c.md);
    assert Calm(env, s.w.clock, Read(env, c, s).0.clock);
  }

  // ---------- what every pass keeps ----------

  function Owed(env: Env, s: State): nat {
    Debt(env, s.w, s.d)
  }

  /** Every call made in between was safe for AWS-owned tags; the debt fell by exactly the number of
      calls that paid; and what later passes rely on is kept. */
  ghost predicate Kept(env: Env, s: State, t: State) {
    && GrewSafely(s.w.log, t.w.log)
    && Admissible(env, t.d) == Admissible(env, s.d)
    && Owed(env, t) + Paid(env, t.d, t.w.log) == Owed(env, s) + Paid(env, s.d, s.w.log)
    && (Exists(env, s.w, s.d) ==> Exists(env, t.w, t.d))
  }

  lemma KeptTransitive(env: Env, r: State, s: State, t: State)
    requires Kept(env, r, s) && Kept(env, s, t)
    ensures Kept(env, r, t)
  {
    forall i | |r.w.log| <= i < |t.w.log| ensures Safe(t.w.log[i]) {
      if i < |s.w.log| {
        assert t.w.log[i] == s.w.log[i];
      }
    }
  }

  /** Conservation over one pass in which any call may fail. */
  lemma PassConserves(env: Env, c: Context, s: State)
    requires Ready(env, c, s)
    ensures var t := Pass(env, c, s);
            Ready(env, c, t) && Kept(env, s, t)
  {
    var (w1, answer) := Read(env, c, s);
    var t := Pass(env, c, s);
    PassInStages(env, c, s);
    SameButMirrored(env, s.w, w1, s.d, t.d);
    if answer.Ok? {
      StagesConserve(env, w1, t.d);
      StagesAreSafe(env, w1, t.d);
    } else {
      CreateConserves(env, w1, s.d);
    }
  }

  /** The database itself is out of reach: the user asks for an AWS tag the resource lacks, or the
      database is missing and the caller cannot see that. */
  predicate Blocked(env: Env, c: Context, s: State) {
    !NoForeignTags(env, s.w, s.d) || (c.hidden && !Exists(env, s.w, s.d))
  }

  /** What the controller can hope for is decided at the start: nothing blocks it, and the spec can come
      back without drift. */
  predicate Settleable(env: Env, c: Context, s: State) {
    !Blocked(env, c, s) && Repairable(env, s.w, s.d)
  }

  /** The same prospects; and no stored database changed while all are blocked. */
  ghost predicate Alike(env: Env, c: Context, s: State, t: State) {
    && t.d == s.d.(tags := t.d.tags)
    && NoForeignTags(env, t.w, t.d) == NoForeignTags(env, s.w, s.d)
    && Repairable(env, t.w, t.d) == Repairable(env, s.w, s.d)
    && (c.hidden ==> Exists(env, t.w, t.d) == Exists(env, s.w, s.d))
    && (Blocked(env, c, s) ==> t.w.databases == s.w.databases)
  }

  /** No pass, whatever fails in it, changes the prospects. */
  lemma PassKeepsProspects(env: Env, c: Context, s: State)
    requires Ready(env, c, s)
    ensures Alike(env, c, s, Pass(env, c, s))
  {
    if Read(env, c, s).1.Ok? {
      UpdatingPassKeepsProspects(env, c, s);
    } else {
      CreatingPassKeepsProspects(env, c, s);
    }
  }

  lemma UpdatingPassKeepsProspects(env: Env, c: Context, s: State)
    requires Ready(env, c, s) && Read(env, c, s).1.Ok?
    ensures Alike(env, c, s, Pass(env, c, s))
  {
    var w1, t := Read(env, c, s).0, Pass(env, c, s);
    PassInStages(env, c, s);
    SameButMirrored(env, s.w, w1, s.d, t.d);
    MirrorKeepsForeign(env, s.w, w1, s.d, t.d);
    StagesKeepProspects(env, w1, t.d);
  }

  lemma CreatingPassKeepsProspects(env: Env, c: Context, s: State)
    requires Ready(env, c, s) && Read(env, c, s).1.Err?
    ensures Alike(env, c, s, Pass(env, c, s))
  {
    var w1 := Read(env, c, s).0;
    PassInStages(env, c, s);
    SameStoreSameDrift(env, s.w, s.d, w1, s.d);
    CreateKeepsProspects(env, w1, s.d);
  }

  /** What is owed after a pass without faults. */
  function Residue(env: Env, c: Context, s: State): nat {
    if c.hidden && !Exists(env, s.w, s.d) then 1 else Leftover(env, s.w, s.d)
  }

  lemma ResidueIsZero(env: Env, c: Context, s: State)
    ensures Residue(env, c, s) == 0 <==> Settleable(env, c, s)
  {
  }

  lemma OwesResidue(env: Env, c: Context, s: State)
    ensures Owed(env, s) >= Residue(env, c, s)
  {
    OwesLeftover(env, s.w, s.d);
  }

  lemma AlikeLeaveTheSame(env: Env, c: Context, s: State, t: State)
    requires Alike(env, c, s, t)
    ensures Residue(env, c, t) == Residue(env, c, s)
  {
    if Blocked(env, c, s) {
      SameStoreSameDrift(env, s.w, s.d, t.w, t.d);
    }
  }

  /** No call the pass from s makes is struck by a fault. */
  ghost predicate CalmPass(env: Env, c: Context, s: State) {
    Calm(env, s.w.clock, Pass(env, c, s).w.clock)
  }

  /** A spec that only its own form keeps from settling: its calls get through. */
  predicate Restless(env: Env, c: Context, s: State) {
    !Blocked(env, c, s) && !Repairable(env, s.w, s.d) && s.d.name.Some?
  }

  /** A pass without faults leaves the residue; and if only the spec stands in the way, it makes a call that
      writes all the same. */
  lemma CalmPassSettles(env: Env, c: Context, s: State)
    requires Ready(env, c, s) && CalmPass(env, c, s)
    ensures var t := Pass(env, c, s);
            && Owed(env, t) == Residue(env, c, s)
            && (Restless(env, c, s) ==> Successes(t.w.log) >= Successes(s.w.log) + 1)
  {
    if Read(env, c, s).1.Ok? {
      CalmUpdatingPass(env, c, s);
    } else {
      CalmCreatingPass(env, c, s);
    }
  }

  lemma CalmUpdatingPass(env: Env, c: Context, s: State)
    requires Ready(env, c, s) && CalmPass(env, c, s) && Read(env, c, s).1.Ok?
    ensures var t := Pass(env, c, s);
            && Owed(env, t) == Residue(env, c, s)
            && (Restless(env, c, s) ==> Successes(t.w.log) >= Successes(s.w.log) + 1)
  {
    var w1, t := Read(env, c, s).0, Pass(env, c, s);
    PassInStages(env, c, s);
    SameButMirrored(env, s.w, w1, s.d, t.d);
    StagesTakeTime(env, w1, t.d);
    MirrorKeepsForeign(env, s.w, w1, s.d, t.d);
    CalmStages(env, w1, t.d);
  }

  lemma CalmCreatingPass(env: Env, c: Context, s: State)
    requires Ready(env, c, s) && CalmPass(env, c, s) && Read(env, c, s).1.Err?
    ensures var t := Pass(env, c, s);
            && Owed(env, t) == Residue(env, c, s)
            && (Restless(env, c, s) ==> Successes(t.w.log) >= Successes(s.w.log) + 1)
  {
    var w1 := Read(env, c, s).0;
    CalmReadMisses(env, c, s);
    TimeLeavesTheSame(env, s.w, w1, s.d);
    if !c.hidden {
      CalmCreate(env, w1, s.d);
    }
  }

  /** Without faults a read fails only for a database that is missing. */
  lemma CalmReadMisses(env: Env, c: Context, s: State)
    requires Ready(env, c, s) && CalmPass(env, c, s) && Read(env, c, s).1.Err?
    ensures var w1 := Read(env, c, s).0;
            && !Exists(env, s.w, s.d) && w1 == s.w.(clock := w1.clock)
            && Pass(env, c, s) == State(if c.hidden then w1 else CreateDb(env, w1, s.d).0, s.d)
            && (!c.hidden ==> env.faults(w1.clock).None?)
  {
    PassInStages(env, c, s);
    FindReadsBack(env, c.id, s.w, s.d, c.md);
  }

  /** With nothing owed no call that could write is made, unless the read itself is answered with a
      spurious "not found"; then the create call it leads to is refused. */
  lemma SettledPassIsQuiet(env: Env, c: Context, s: State)
    requires Ready(env, c, s) && Owed(env, s) == 0
    ensures var w' := Pass(env, c, s).w;
            && w'.databases == s.w.databases && w'.tags == s.w.tags
            && if Read(env, c, s).1 == Err(NotFound) && !c.hidden
               then |w'.log| == |s.w.log| + 1 && !w'.log[|s.w.log|].succeeded
               else w'.log == s.w.log
  {
    var w1 := Read(env, c, s).0;
    var backend := TagsAt(s.w, ArnOfSpec(env, s.d));
    PassInStages(env, c, s);
    SameButMirrored(env, s.w, w1, s.d, Pass(env, c, s).d);
    NoTagDebt(backend, WantedTags(s.d, backend));
  }

  // ---------- whole runs ----------

  function Step(env: Env, c: Context): State -> State {
    (s: State) => Pass(env, c, s)
  }

  function Run(env: Env, c: Context, s: State, n: nat): State {
    Iterate(Step(env, c), s, n)
  }

  /** The backend and the desired resource are at the state s of a run. */
  ghost predicate IsAt(rm: ResourceManager, desired: Database, c: Context, s: State)
    reads rm.sdkapi, desired, desired.Entries()
  {
    && s == State(rm.sdkapi.w, desired.spec)
    && c == ContextOf(rm, desired)
    && Ready(rm.sdkapi.env, c, s)
  }

  /** `Reconcile` as one step of a run. */
  method ReconcileStep(rm: ResourceManager, desired: Database, ghost c: Context, ghost s: State)
    requires IsAt(rm, desired, c, s)
    modifies rm.sdkapi, desired`spec
    ensures IsAt(rm, desired, c, Step(rm.sdkapi.env, c)(s))
  {
    PassConserves(rm.sdkapi.env, c, s);
    Reconcile(rm, desired);
    CondsKept(desired);
  }

  /** A run of the operations themselves. */
  method ReconcileTimes(rm: ResourceManager, desired: Database, n: nat)
    requires Ready(rm.sdkapi.env, ContextOf(rm, desired), State(rm.sdkapi.w, desired.spec))
    modifies rm.sdkapi, desired`spec
    ensures State(rm.sdkapi.w, desired.spec) ==
            Run(rm.sdkapi.env, old(ContextOf(rm, desired)), State(old(rm.sdkapi.w), old(desired.spec)), n)
  {
    ghost var c, start := ContextOf(rm, desired), State(rm.sdkapi.w, desired.spec);
    for i := 0 to n
      invariant IsAt(rm, desired, c, Run(rm.sdkapi.env, c, start, i))
    {
      ReconcileStep(rm, desired, c, Run(rm.sdkapi.env, c, start, i));
    }
  }

  lemma AlikeTransitive(env: Env, c: Context, r: State, s: State, t: State)
    requires Alike(env, c, r, s) && Alike(env, c, s, t)
    ensures Alike(env, c, r, t)
  {
  }

  /** What is known of every state x of a run from s. */
  ghost predicate Follows(env: Env, c: Context, s: State, x: State) {
    Ready(env, c, x) && Kept(env, s, x) && Alike(env, c, s, x)
  }

  lemma PassFollows(env: Env, c: Context, s: State, x: State)
    requires Follows(env, c, s, x)
    ensures Follows(env, c, s, Pass(env, c, x))
  {
    var t := Pass(env, c, x);
    PassConserves(env, c, x);
    PassKeepsProspects(env, c, x);
    KeptTransitive(env, s, x, t);
    AlikeTransitive(env, c, s, x, t);
  }

  lemma StepsFollow(step: State -> State, env: Env, c: Context, s: State, n: nat)
    requires Follows(env, c, s, s)
    requires forall x :: Follows(env, c, s, x) ==> Follows(env, c, s, step(x))
    ensures Follows(env, c, s, Iterate(step, s, n))
  {
    IterateKeeps(step, s, n, (x: State) => Follows(env, c, s, x));
  }

  lemma RunFollows(env: Env, c: Context, s: State, n: nat)
    requires Ready(env, c, s)
    ensures Follows(env, c, s, Run(env, c, s, n))
  {
    var step := Step(env, c);
    forall x | Follows(env, c, s, x) ensures Follows(env, c, s, step(x)) {
      PassFollows(env, c, s, x);
    }
    StepsFollow(step, env, c, s, n);
  }

  /** For every spec, over any number of passes, with any calls failing: no call, successful or not,
      untags an AWS-owned key or tags one that the resource carries; and what was owed at the start is what
      was paid plus what is still owed, so that at most three calls ever pay. For an admissible spec every
      call that succeeds pays. */
  lemma RunConserves(env: Env, c: Context, s: State, n: nat)
    requires Ready(env, c, s)
    ensures var t := Run(env, c, s, n);
            && GrewSafely(s.w.log, t.w.log)
            && Owed(env, t) + Paid(env, s.d, t.w.log) == Owed(env, s) + Paid(env, s.d, s.w.log)
            && Paid(env, s.d, t.w.log) <= Paid(env, s.d, s.w.log) + 3
            && (Admissible(env, s.d) ==> Successes(t.w.log) <= Successes(s.w.log) + 3)
  {
    RunFollows(env, c, s, n);
    DebtAtMostThree(env, s);
  }

  lemma DebtAtMostThree(env: Env, s: State)
    ensures Owed(env, s) <= 3
  {
  }

  /** Under every schedule: while an AWS tag is asked for that the resource lacks, or a missing database goes
      unseen, no stored database ever changes. */
  lemma BlockedNothingChanges(env: Env, c: Context, s: State, n: nat)
    requires Ready(env, c, s) && Blocked(env, c, s)
    ensures var t := Run(env, c, s, n);
            Blocked(env, c, t) && t.w.databases == s.w.databases
  {
    RunFollows(env, c, s, n);
    if c.hidden && !Exists(env, s.w, s.d) {
      SameStoreSameDrift(env, s.w, s.d, Run(env, c, s, n).w, Run(env, c, s, n).d);
    }
  }

  // ---------- convergence ----------

  /** The database exists and a read of it, with its AWS tags mirrored, shows no drift. */
  predicate InSync(env: Env, s: State) {
    && Exists(env, s.w, s.d)
    && var back := ReadBack(env, s.w, s.d);
       DeltaPaths(MirroredSpec(s.d, back), back) == []
  }

  /** Nothing is owed exactly when nothing differs. */
  lemma NothingOwed(env: Env, s: State)
    ensures Owed(env, s) == 0 <==> InSync(env, s)
  {
    if Exists(env, s.w, s.d) {
      var back := ReadBack(env, s.w, s.d);
      var backend := TagsAt(s.w, ArnOfSpec(env, s.d));
      NoTagDebt(backend, WantedTags(s.d, backend));
      MirrorIsWanted(env, s.w, s.d);
      SameButMirrored(env, s.w, s.w, s.d, MirroredSpec(s.d, back));
      PointerThenPlain(backend);
      DriftByParts(MirroredSpec(s.d, back), back);
    }
  }

  /** In sync, field by field: the spec agrees with what is read back outside the tags, and the tags the user
      wants, with the AWS-owned ones of the resource, are those of the resource. */
  lemma InSyncExactly(env: Env, s: State)
    ensures InSync(env, s) <==>
            && Exists(env, s.w, s.d)
            && AgreeOutsideTags(s.d, ReadBack(env, s.w, s.d))
            && var backend := TagsAt(s.w, ArnOfSpec(env, s.d)); WantedTags(s.d, backend) == backend
  {
    NothingOwed(env, s);
    if Exists(env, s.w, s.d) {
      var backend := TagsAt(s.w, ArnOfSpec(env, s.d));
      AgreeExactly(s.d, ReadBack(env, s.w, s.d));
      NoTagDebt(backend, WantedTags(s.d, backend));
    }
  }

  /** One pass under any faults: no more is owed than before, no less than the residue, and that is kept. */
  lemma PassKeepsResidue(env: Env, c: Context, s: State)
    requires Ready(env, c, s)
    ensures var t := Pass(env, c, s);
            && Ready(env, c, t)
            && Residue(env, c, t) == Residue(env, c, s) <= Owed(env, t) <= Owed(env, s)
  {
    var t := Pass(env, c, s);
    PassConserves(env, c, s);
    PaidMonotone(env, s.d, s.w.log, t.w.log);
    PassKeepsProspects(env, c, s);
    AlikeLeaveTheSame(env, c, s, t);
    OwesResidue(env, c, t);
  }

  /** Under every schedule what is owed never falls below the residue of the start. */
  lemma RunOwesResidue(env: Env, c: Context, s: State, n: nat)
    requires Ready(env, c, s)
    ensures Owed(env, Run(env, c, s, n)) >= Residue(env, c, s)
  {
    var t := Run(env, c, s, n);
    RunFollows(env, c, s, n);
    AlikeLeaveTheSame(env, c, s, t);
    OwesResidue(env, c, t);
  }

  lemma EveryPassKeepsResidue(env: Env, c: Context)
    ensures forall x :: Ready(env, c, x) ==>
                          && Ready(env, c, Step(env, c)(x)) && Residue(env, c, x) <= Owed(env, x)
                          && Owed(env, Step(env, c)(x)) <= Owed(env, x)
                          && Residue(env, c, Step(env, c)(x)) == Residue(env, c, x)
  {
    forall x | Ready(env, c, x)
      ensures Ready(env, c, Step(env, c)(x)) && Residue(env, c, x) <= Owed(env, x)
      ensures Owed(env, Step(env, c)(x)) <= Owed(env, x)
      ensures Residue(env, c, Step(env, c)(x)) == Residue(env, c, x)
    {
      PassKeepsResidue(env, c, x);
    }
  }

  lemma StepsStayLow(step: State -> State, env: Env, c: Context, s: State, j: nat, n: nat)
    requires Ready(env, c, s) && j <= n && Owed(env, Iterate(step, s, j)) == Residue(env, c, s)
    requires forall x :: Ready(env, c, x) ==>
                           && Ready(env, c, step(x)) && Residue(env, c, x) <= Owed(env, x)
                           && Owed(env, step(x)) <= Owed(env, x) && Residue(env, c, step(x)) == Residue(env, c, x)
    ensures Owed(env, Iterate(step, s, n)) == Residue(env, c, s)
  {
    var inv := (x: State) => Ready(env, c, x);
    var owed, residue := (x: State) => Owed(env, x), (x: State) => Residue(env, c, x);
    IterateStaysLow(step, s, j, n, inv, owed, residue);
  }

  lemma CalmPassLeavesResidue(env: Env, c: Context, s: State, i: nat)
    requires Ready(env, c, s) && CalmPass(env, c, Run(env, c, s, i))
    ensures Owed(env, Run(env, c, s, i + 1)) == Residue(env, c, s)
  {
    var si := Run(env, c, s, i);
    RunFollows(env, c, s, i);
    AlikeLeaveTheSame(env, c, s, si);
    CalmPassSettles(env, c, si);
  }

  /** After one pass of a run without faults, and ever after whatever fails, exactly the residue of the start is
      owed: for a spec that never settles too, the tags have landed and only the drift is left. */
  lemma RunLeavesResidue(env: Env, c: Context, s: State, i: nat, n: nat)
    requires Ready(env, c, s)
    requires i < n && CalmPass(env, c, Run(env, c, s, i))
    ensures Owed(env, Run(env, c, s, n)) == Residue(env, c, s)
  {
    CalmPassLeavesResidue(env, c, s, i);
    EveryPassKeepsResidue(env, c);
    StepsStayLow(Step(env, c), env, c, s, i + 1, n);
  }

  /** Under every schedule: a run that starts from a state that is not settleable never gets in sync. */
  lemma NeverInSync(env: Env, c: Context, s: State, n: nat)
    requires Ready(env, c, s) && !Settleable(env, c, s)
    ensures !InSync(env, Run(env, c, s, n))
  {
    ResidueIsZero(env, c, s);
    RunOwesResidue(env, c, s, n);
    NothingOwed(env, Run(env, c, s, n));
  }

  /** Convergence, exactly: after one pass of a run without faults, and ever after whatever fails, the
      database exists and reading it back shows no drift, if and only if the start was settleable. */
  lemma RunConverges(env: Env, c: Context, s: State, i: nat, n: nat)
    requires Ready(env, c, s)
    requires i < n && CalmPass(env, c, Run(env, c, s, i))
    ensures InSync(env, Run(env, c, s, n)) <==> Settleable(env, c, s)
  {
    ResidueIsZero(env, c, s);
    RunLeavesResidue(env, c, s, i, n);
    NothingOwed(env, Run(env, c, s, n));
  }

  // ---------- how long it takes ----------

  ghost predicate FaultsWithin(env: Env, faulty: set<nat>) {
    forall t: nat :: env.faults(t).Some? ==> t in faulty
  }

  ghost function CalmFrom(env: Env, c: Context): State -> bool {
    (x: State) => CalmPass(env, c, x)
  }

  /** How many of the first n passes no fault struck. */
  ghost function CalmPasses(env: Env, c: Context, s: State, n: nat): nat {
    GoodSteps(Step(env, c), s, n, CalmFrom(env, c))
  }

  lemma PassTakesTime(env: Env, c: Context, s: State)
    requires Ready(env, c, s)
    ensures s.w.clock <= Pass(env, c, s).w.clock
  {
    PassInStages(env, c, s);
    StagesTakeTime(env, Read(env, c, s).0, Pass(env, c, s).d);
  }

  lemma FaultyTick(env: Env, c: Context, s: State, faulty: set<nat>)
    requires FaultsWithin(env, faulty) && !CalmPass(env, c, s)
    ensures exists t :: t in faulty && s.w.clock <= t < Pass(env, c, s).w.clock
  {
  }

  lemma EveryPassTakesItsTime(env: Env, c: Context, faulty: set<nat>)
    requires FaultsWithin(env, faulty)
    ensures forall x :: Ready(env, c, x) ==>
                          && Ready(env, c, Step(env, c)(x))
                          && x.w.clock <= Step(env, c)(x).w.clock
                          && (CalmFrom(env, c)(x) ||
                              exists t :: t in faulty && x.w.clock <= t < Step(env, c)(x).w.clock)
  {
    forall x | Ready(env, c, x)
      ensures Ready(env, c, Step(env, c)(x)) && x.w.clock <= Step(env, c)(x).w.clock
      ensures CalmFrom(env, c)(x) || exists t :: t in faulty && x.w.clock <= t < Step(env, c)(x).w.clock
    {
      PassConserves(env, c, x);
      PassTakesTime(env, c, x);
      if !CalmPass(env, c, x) {
        FaultyTick(env, c, x, faulty);
      }
    }
  }

  lemma StepsSpoilt(
    step: State -> State, calm: State -> bool, env: Env, c: Context, s: State, n: nat, faulty: set<nat>)
    requires Ready(env, c, s)
    requires forall x :: Ready(env, c, x) ==>
                           && Ready(env, c, step(x)) && x.w.clock <= step(x).w.clock
                           && (calm(x) || exists t :: t in faulty && x.w.clock <= t < step(x).w.clock)
    ensures n <= GoodSteps(step, s, n, calm) + |faulty|
  {
    var inv, clock := (x: State) => Ready(env, c, x), (x: State) => x.w.clock;
    BadTicksSpoilFewSteps(step, s, n, inv, calm, clock, faulty);
    SubsetIsSmaller(Before(faulty, Iterate(step, s, n).w.clock), faulty);
  }

  /** All passes of a run but as many as there are faulty ticks go through without a fault. */
  lemma FaultsSpoilFewPasses(env: Env, c: Context, s: State, n: nat, faulty: set<nat>)
    requires Ready(env, c, s) && FaultsWithin(env, faulty)
    ensures n <= CalmPasses(env, c, s, n) + |faulty|
  {
    EveryPassTakesItsTime(env, c, faulty);
    StepsSpoilt(Step(env, c), CalmFrom(env, c), env, c, s, n, faulty);
  }

  /** If only so many ticks of the schedule are faulty, one pass more than that is enough, and what
      is reached is kept: the residue is owed, which is nothing exactly when the start was settleable. */
  lemma FewFaultsSettle(env: Env, c: Context, s: State, n: nat, faulty: set<nat>)
    requires Ready(env, c, s) && FaultsWithin(env, faulty) && |faulty| < n
    ensures Owed(env, Run(env, c, s, n)) == Residue(env, c, s)
    ensures InSync(env, Run(env, c, s, n)) <==> Settleable(env, c, s)
  {
    FaultsSpoilFewPasses(env, c, s, n, faulty);
    var i := SomeStepIsGood(Step(env, c), s, n, CalmFrom(env, c));
    RunLeavesResidue(env, c, s, i, n);
    RunConverges(env, c, s, i, n);
  }

  // ---------- from late initialisation on ----------

  /** What a late-initialised resource can hope for. */
  lemma LateInitializedIsSettleable(env: Env, c: Context, s: State)
    requires Ready(env, c, s) && Read(env, c, s).1.Ok?
    ensures var late := LateInitializedState(env, c, s);
            && Ready(env, c, late)
            && (Settleable(env, c, late) <==>
                  && Fold(s.d.name.value) == s.d.name.value
                  && (s.d.parameters.Some? ==> NoNilValues(s.d.parameters.value))
                  && NoForeignTags(env, s.w, s.d))
  {
    var (w1, answer) := Read(env, c, s);
    var late := LateInitializedState(env, c, s);
    var once := LateInitialized(s.d, answer.value.spec);
    FindIsReadOnly(env, c.id, s.w, s.d, c.md);
    FindReadsBack(env, c.id, s.w, s.d, c.md);
    LateInitMakesAdmissible(env, c.id, s.w, s.d, c.md);
    assert late.d == once.(tags := late.d.tags);
    MirrorIsWanted(env, s.w, s.d);
    LateInitKeepsForeign(env, s.w, s.d);
    RepairableExactly(env, w1, late.d);
  }

  /** The world and the spec after `LateInitialize`. */
  function LateInitializedState(env: Env, c: Context, s: State): State
    requires Read(env, c, s).1.Ok?
  {
    var (w1, answer) := Read(env, c, s);
    State(w1, LateInitialized(MirroredSpec(s.d, answer.value.spec), answer.value.spec))
  }

  lemma LateInitKeepsForeign(env: Env, w: World, d: DatabaseSpec)
    requires Exists(env, w, d)
    ensures var back := ReadBack(env, w, d);
            var late := LateInitialized(MirroredSpec(d, back), back);
            && KeyOfSpec(env, late) == KeyOfSpec(env, d)
            && NoForeignTags(env, w, late) == NoForeignTags(env, w, d)
  {
    var back := ReadBack(env, w, d);
    MirrorIsWanted(env, w, d);
    MirrorKeepsForeign(env, w, w, d, MirroredSpec(d, back));
  }

  /** Late initialisation once, then runs: with at most so many faulty ticks, one pass more than that ends
      in sync exactly when the name is in its stored form, no parameter value is nil and no AWS tag is
      asked for that the resource lacks. The catalog and the permissions no longer matter. */
  lemma LateInitializedSettles(env: Env, c: Context, s: State, n: nat, faulty: set<nat>)
    requires Ready(env, c, s) && Read(env, c, s).1.Ok?
    requires FaultsWithin(env, faulty) && |faulty| < n
    ensures InSync(env, Run(env, c, LateInitializedState(env, c, s), n)) <==>
            && Fold(s.d.name.value) == s.d.name.value
            && (s.d.parameters.Some? ==> NoNilValues(s.d.parameters.value))
            && NoForeignTags(env, s.w, s.d)
  {
    LateInitializedIsSettleable(env, c, s);
    FewFaultsSettle(env, c, LateInitializedState(env, c, s), n, faulty);
  }

  // ---------- specs that are not admissible ----------

  /** Under every schedule: a spec that is not admissible, unless what is stored happens to agree with it
      already, never settles; and unless it is blocked too, every pass without faults makes another call that
      succeeds. */
  lemma InadmissibleNeverSettles(env: Env, c: Context, s: State, n: nat)
    requires Ready(env, c, s) && !Repairable(env, s.w, s.d)
    ensures var t := Run(env, c, s, n);
            && !Repairable(env, t.w, t.d) && !InSync(env, t)
            && (Restless(env, c, s) ==> Successes(t.w.log) >= Successes(s.w.log) + CalmPasses(env, c, s, n))
  {
    RunFollows(env, c, s, n);
    NeverInSync(env, c, s, n);
    if Restless(env, c, s) {
      RestlessRunWrites(env, c, s, n);
    }
  }

  lemma RestlessRunWrites(env: Env, c: Context, s: State, n: nat)
    requires Ready(env, c, s) && Restless(env, c, s)
    ensures Successes(Run(env, c, s, n).w.log) >= Successes(s.w.log) + CalmPasses(env, c, s, n)
  {
    EveryRestlessPassWrites(env, c);
    StepsWrite(Step(env, c), CalmFrom(env, c), env, c, s, n);
  }

  lemma RestlessPassWrites(env: Env, c: Context, s: State)
    requires Ready(env, c, s) && Restless(env, c, s)
    ensures var t := Pass(env, c, s);
            && Ready(env, c, t) && Restless(env, c, t)
            && Successes(t.w.log) >= Successes(s.w.log) + if CalmPass(env, c, s) then 1 else 0
  {
    PassConserves(env, c, s);
    PassKeepsProspects(env, c, s);
    SuccessesMonotone(s.w.log, Pass(env, c, s).w.log);
    if CalmPass(env, c, s) {
      CalmPassSettles(env, c, s);
    }
  }

  lemma EveryRestlessPassWrites(env: Env, c: Context)
    ensures forall x :: Ready(env, c, x) && Restless(env, c, x) ==>
                          && Ready(env, c, Step(env, c)(x)) && Restless(env, c, Step(env, c)(x))
                          && Successes(Step(env, c)(x).w.log) >=
                             Successes(x.w.log) + if CalmFrom(env, c)(x) then 1 else 0
  {
    forall x | Ready(env, c, x) && Restless(env, c, x)
      ensures Ready(env, c, Step(env, c)(x)) && Restless(env, c, Step(env, c)(x))
      ensures Successes(Step(env, c)(x).w.log) >= Successes(x.w.log) + if CalmFrom(env, c)(x) then 1 else 0
    {
      RestlessPassWrites(env, c, x);
    }
  }

  lemma StepsWrite(step: State -> State, calm: State -> bool, env: Env, c: Context, s: State, n: nat)
    requires Ready(env, c, s) && Restless(env, c, s)
    requires forall x :: Ready(env, c, x) && Restless(env, c, x) ==>
                           && Ready(env, c, step(x)) && Restless(env, c, step(x))
                           && Successes(step(x).w.log) >= Successes(x.w.log) + if calm(x) then 1 else 0
    ensures Successes(Iterate(step, s, n).w.log) >= Successes(s.w.log) + GoodSteps(step, s, n, calm)
  {
    var inv := (x: State) => Ready(env, c, x) && Restless(env, c, x);
    GoodStepsCount(step, s, n, inv, calm, (x: State) => Successes(x.w.log));
  }

  // ---------- three that never settle ----------

  /** An empty store whose calls never fail, with no default permissions. */
  function Empty(home: Identity): Env {
    Env(home, [], (t: nat) => None)
  }

  function Wish(catalog: Option<string>, tags: Option<StringMap>): State {
    State(World(map[], map[], 0, []), DatabaseSpec(catalog, None, None, None, Some("db"), None, None, tags, None))
  }

  /** A spec that names no catalog: it is created, and then updated on every pass. */
  lemma CatalogLeftOut(home: Identity, n: nat)
    ensures var t := Run(Empty(home), Context(home, None, false), Wish(None, None), n);
            !InSync(Empty(home), t) && Successes(t.w.log) >= n
  {
    var c, s := Context(home, None, false), Wish(None, None);
    FaultsSpoilFewPasses(Empty(home), c, s, n, {});
    InadmissibleNeverSettles(Empty(home), c, s, n);
  }

  /** A spec with a tag of its own under the AWS prefix: it is never created. */
  lemma AwsTagAskedFor(home: Identity, n: nat)
    ensures var s := Wish(Some("c"), Some(map["aws:x" := Some("v")]));
            Run(Empty(home), Context(home, None, false), s, n).w.databases == map[]
  {
    var s := Wish(Some("c"), Some(map["aws:x" := Some("v")]));
    assert "aws:x"[..4] == AWS_PREFIX;
    assert "aws:x" in TagValues(s.d.tags) && IsAWS("aws:x");
    BlockedNothingChanges(Empty(home), Context(home, None, false), s, n);
  }

  /** A spec with nothing wrong about it, on a resource whose condition list hides "not found": it is never
      created either. */
  lemma NotFoundHidden(home: Identity, n: nat)
    ensures var s := Wish(Some("c"), None);
            Admissible(Empty(home), s.d) && Run(Empty(home), Context(home, None, true), s, n).w.databases == map[]
  {
    BlockedNothingChanges(Empty(home), Context(home, None, true), Wish(Some("c"), None), n);
  }
}
