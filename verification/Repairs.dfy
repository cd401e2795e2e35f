/** What one update and one create call do about the difference between a spec and the store,
    whatever fails: what they pay off, what they leave owed, and what they cannot change. */
module Repairs {
  import opened Types
  import opened Tags
  import opened Glue
  import opened TagSync
  import opened Deltas
  import opened Sdk
  import opened Manager
  import opened RoundTrip

  // ---------- what is still owed ----------

  /** The tags the user wants, with the AWS-owned ones of the resource mirrored in. */
  function WantedTags(d: DatabaseSpec, backend: Plain): Plain {
    TagValues(d.tags) + AwsPart(backend)
  }

  /** How many successful calls are still owed: the creation, or else an untag call, a tag call and
      an update, each counted if it has something to do. */
  function Debt(env: Env, w: World, d: DatabaseSpec): nat {
    if !Exists(env, w, d) then 1
    else
      var backend := TagsAt(w, ArnOfSpec(env, d));
      TagDebt(backend, WantedTags(d, backend)) + Flag(!SameButTags(d, ReadBack(env, w, d)))
  }

  /** How many create and update calls succeeded. */
  function Writes(log: seq<Attempt>): nat {
    if |log| == 0 then 0
    else
      var last := log[|log| - 1];
      Writes(log[..|log| - 1]) + Flag(last.succeeded && (last.call.CreateCall? || last.call.UpdateCall?))
  }

  lemma WritesAppend(log: seq<Attempt>, a: Attempt)
    ensures Writes(log + [a]) == Writes(log) + Flag(a.succeeded && (a.call.CreateCall? || a.call.UpdateCall?))
  {
    assert (log + [a])[..|log|] == log;
  }

  /** How many of the calls that succeeded paid off a debt: all of them, but for the creates and updates
      of a spec that is not admissible, which leave as much owed as before. */
  function Paid(env: Env, d: DatabaseSpec, log: seq<Attempt>): int {
    Successes(log) - if Admissible(env, d) then 0 else Writes(log)
  }

  /** Paying goes on: with every further call as much is paid as before, or more. */
  lemma {:induction false} PaidMonotone(env: Env, d: DatabaseSpec, was: seq<Attempt>, now: seq<Attempt>)
    requires was <= now
    ensures Paid(env, d, was) <= Paid(env, d, now)
  {
    if |was| < |now| {
      assert was <= now[..|now| - 1];
      PaidMonotone(env, d, was, now[..|now| - 1]);
    } else {
      assert was == now;
    }
  }

  /** The desired spec already carries the AWS tags of the resource. */
  predicate IsMirrored(env: Env, w: World, d: DatabaseSpec) {
    TagValues(d.tags) == WantedTags(d, TagsAt(w, ArnOfSpec(env, d)))
  }

  /** What the update of a pass starts from. */
  ghost predicate Current(env: Env, w: World, d: DatabaseSpec) {
    Faithful(env, w) && Exists(env, w, d) && PanicFree(d) && IsMirrored(env, w, d)
  }

  /** Every tag the user asks for under the AWS prefix is one the resource already has. */
  predicate NoForeignTags(env: Env, w: World, d: DatabaseSpec) {
    forall k | k in TagValues(d.tags) && IsAWS(k) :: Exists(env, w, d) && k in TagsAt(w, ArnOfSpec(env, d))
  }

  /** Existing, and different from the spec outside the tags. */
  predicate Drifts(env: Env, w: World, d: DatabaseSpec) {
    Exists(env, w, d) && !SameButTags(d, ReadBack(env, w, d))
  }

  /** The spec can be stored without drift, or what is stored happens not to drift from it. */
  predicate Repairable(env: Env, w: World, d: DatabaseSpec) {
    Admissible(env, d) || (Exists(env, w, d) && !Drifts(env, w, d))
  }

  // ---------- the stages of an update ----------

  /** The tag stage of an update: the sync, if the tags differ at all. */
  function TagStage(env: Env, w: World, d: DatabaseSpec): (World, Option<Error>) {
    var arn := ArnOfSpec(env, d);
    if TagValues(d.tags) == TagsAt(w, arn) then (w, None) else Synced(env, w, arn, TagValues(d.tags), TagsAt(w, arn))
  }

  function PutStage(env: Env, w: World, d: DatabaseSpec): (World, Option<Error>) {
    ServeUpdateDatabase(env, w, d.catalogID, d.name, InputOf(d))
  }

  /** An update in stages, each made for a reason that is visible in the store. */
  function Stages(env: Env, w: World, d: DatabaseSpec): World {
    var tagged := TagStage(env, w, d);
    if tagged.1.Some? || !Drifts(env, w, d) then tagged.0 else PutStage(env, tagged.0, d).0
  }

  lemma TagStageTakesTime(env: Env, w: World, d: DatabaseSpec)
    ensures w.clock <= TagStage(env, w, d).0.clock
  {
  }

  lemma StagesTakeTime(env: Env, w: World, d: DatabaseSpec)
    ensures w.clock <= TagStage(env, w, d).0.clock <= Stages(env, w, d).clock
  {
    TagStageTakesTime(env, w, d);
    var tagged := TagStage(env, w, d).0;
    assert PutStage(env, tagged, d).0.clock == tagged.clock + 1;
  }

  /** Everything the theorems look at is the same for two specs that differ only in tags, both of
      which mean the same tags once the AWS-owned ones are mirrored in. */
  lemma SameButMirrored(env: Env, w: World, w1: World, d: DatabaseSpec, d1: DatabaseSpec)
    requires w1 == w.(clock := w1.clock)
    requires d1 == d.(tags := d1.tags)
    requires WantedTags(d1, TagsAt(w, ArnOfSpec(env, d))) == WantedTags(d, TagsAt(w, ArnOfSpec(env, d)))
    ensures Exists(env, w1, d1) == Exists(env, w, d)
    ensures Drifts(env, w1, d1) == Drifts(env, w, d)
    ensures Debt(env, w1, d1) == Debt(env, w, d)
    ensures Admissible(env, d1) == Admissible(env, d) && PanicFree(d1) == PanicFree(d)
    ensures Exists(env, w, d) ==> ReadBack(env, w1, d1) == ReadBack(env, w, d)
  {
    assert Normal(d1).(tags := None) == Normal(d).(tags := None);
  }

  lemma MirrorIsWanted(env: Env, w: World, d: DatabaseSpec)
    requires Exists(env, w, d)
    ensures var d1 := MirroredSpec(d, ReadBack(env, w, d));
            && TagValues(d1.tags) == WantedTags(d, TagsAt(w, ArnOfSpec(env, d)))
            && IsMirrored(env, w, d1)
  {
    var back := ReadBack(env, w, d);
    var backend := TagsAt(w, ArnOfSpec(env, d));
    PointerThenPlain(backend);
    MirrorValues(d.tags, back.tags);
    assert WantedTags(d, backend) + AwsPart(backend) == WantedTags(d, backend);
  }

  lemma MirrorKeepsForeign(env: Env, w: World, w1: World, d: DatabaseSpec, d1: DatabaseSpec)
    requires Exists(env, w, d) && w1 == w.(clock := w1.clock) && d1 == d.(tags := d1.tags)
    requires TagValues(d1.tags) == WantedTags(d, TagsAt(w, ArnOfSpec(env, d)))
    ensures NoForeignTags(env, w1, d1) == NoForeignTags(env, w, d)
  {
    var backend := TagsAt(w, ArnOfSpec(env, d));
    assert forall k | k in TagValues(d1.tags) && IsAWS(k) :: k in TagValues(d.tags) || k in AwsPart(backend);
    assert forall k | k in TagValues(d.tags) :: k in TagValues(d1.tags);
  }

  // ---------- the tag stage ----------

  /** A sync brings no AWS tag to the resource that the desired tags do not have. */
  lemma SyncKeepsMirror(env: Env, w: World, arn: string, wanted: Plain)
    requires arn in w.tags
    requires wanted == wanted + AwsPart(w.tags[arn])
    ensures wanted == wanted + AwsPart(TagsAt(Synced(env, w, arn, wanted, w.tags[arn]).0, arn))
  {
    var now := TagsAt(Synced(env, w, arn, wanted, w.tags[arn]).0, arn);
    forall k | k in AwsPart(now) ensures k in wanted && now[k] == wanted[k] {
      SyncNeverStrays(env, w, arn, wanted, w.tags[arn], k);
      if k in w.tags[arn] {
        assert k in AwsPart(w.tags[arn]);
        assert (wanted + AwsPart(w.tags[arn]))[k] == w.tags[arn][k];
      }
    }
  }

  /** Neither tags nor the clock nor the log have to do with the drift outside the tags. */
  lemma SameStoreSameDrift(env: Env, w: World, d: DatabaseSpec, w': World, d': DatabaseSpec)
    requires w'.databases == w.databases && d' == d.(tags := d'.tags)
    ensures Exists(env, w', d') == Exists(env, w, d) && Drifts(env, w', d') == Drifts(env, w, d)
  {
    if Exists(env, w, d) {
      assert Normal(ReadBack(env, w', d')).(tags := None) == Normal(ReadBack(env, w, d)).(tags := None);
      assert Normal(d').(tags := None) == Normal(d).(tags := None);
    }
  }

  lemma UntagWritesNothing(env: Env, w: World, arn: string, keys: set<string>)
    ensures Writes(ServeUntagResource(env, w, arn, keys).0.log) == Writes(w.log)
  {
    var err := ServeUntagResource(env, w, arn, keys).1;
    WritesAppend(w.log, Attempt(UntagCall(arn, keys), TagsAt(w, arn), err.None?));
  }

  lemma TagWritesNothing(env: Env, w: World, arn: string, tags: Plain)
    ensures Writes(ServeTagResource(env, w, arn, tags).0.log) == Writes(w.log)
  {
    var err := ServeTagResource(env, w, arn, tags).1;
    WritesAppend(w.log, Attempt(TagCall(arn, tags), TagsAt(w, arn), err.None?));
  }

  /** A sync makes tag calls only. */
  lemma SyncWritesNothing(env: Env, w: World, arn: string, wanted: Plain, latest: Plain)
    ensures Writes(Synced(env, w, arn, wanted, latest).0.log) == Writes(w.log)
  {
    var removed, added := UntagKeys(latest, wanted), AddedPairs(latest, wanted);
    var untagged := if removed == {} then w else ServeUntagResource(env, w, arn, removed).0;
    UntagWritesNothing(env, w, arn, removed);
    TagWritesNothing(env, untagged, arn, added);
  }

  lemma TagStageConserves(env: Env, w: World, d: DatabaseSpec)
    requires Current(env, w, d)
    ensures var (w', err) := TagStage(env, w, d);
            && Current(env, w', d)
            && Debt(env, w', d) + Successes(w'.log) == Debt(env, w, d) + Successes(w.log)
            && Writes(w'.log) == Writes(w.log)
            && Drifts(env, w', d) == Drifts(env, w, d)
            && (err.None? ==> TagsAt(w', ArnOfSpec(env, d)) == TagValues(d.tags))
  {
    var arn := ArnOfSpec(env, d);
    var wanted := TagValues(d.tags);
    if wanted != TagsAt(w, arn) {
      SyncKeepsMirror(env, w, arn, wanted);
      SyncNeverStrays(env, w, arn, wanted, TagsAt(w, arn), "");
      SyncConservesDebt(env, w, arn, wanted);
      SyncWritesNothing(env, w, arn, wanted, TagsAt(w, arn));
      if TagStage(env, w, d).1.None? {
        SyncLands(env, w, arn, wanted, TagsAt(w, arn));
      }
    }
    SameStoreSameDrift(env, w, d, TagStage(env, w, d).0, d);
  }

  /** The service refuses to add an AWS tag, so one that is missing stays missing, and the stage fails; the
      others stay in place. */
  lemma TagStageKeepsForeign(env: Env, w: World, d: DatabaseSpec)
    requires Current(env, w, d)
    ensures var (w', err) := TagStage(env, w, d);
            && w'.databases == w.databases
            && NoForeignTags(env, w', d) == NoForeignTags(env, w, d)
            && (!NoForeignTags(env, w, d) ==> err.Some?)
  {
    var arn := ArnOfSpec(env, d);
    var wanted, backend := TagValues(d.tags), TagsAt(w, arn);
    var w' := TagStage(env, w, d).0;
    SyncNeverStrays(env, w, arn, wanted, backend, "");
    if NoForeignTags(env, w, d) {
      forall k | k in wanted && IsAWS(k) ensures Exists(env, w', d) && k in TagsAt(w', arn) {
        SyncNeverStrays(env, w, arn, wanted, backend, k);
      }
    } else {
      var k :| k in wanted && IsAWS(k) && k !in backend;
      assert k in AddedPairs(backend, wanted).Keys;
      assert k !in TagsAt(w', arn);
    }
  }

  lemma MirrorSpelledOut(env: Env, w: World, d: DatabaseSpec)
    requires IsMirrored(env, w, d)
    ensures Mirrored(TagValues(d.tags), TagsAt(w, ArnOfSpec(env, d)))
  {
    var backend := TagsAt(w, ArnOfSpec(env, d));
    assert forall k | k in backend && IsAWS(k) :: k in AwsPart(backend) && WantedTags(d, backend)[k] == backend[k];
  }

  lemma TagStageIsSafe(env: Env, w: World, d: DatabaseSpec)
    requires Current(env, w, d)
    ensures GrewSafely(w.log, TagStage(env, w, d).0.log)
  {
    MirrorSpelledOut(env, w, d);
    SyncIsSafe(env, w, ArnOfSpec(env, d), TagValues(d.tags), TagsAt(w, ArnOfSpec(env, d)));
  }

  /** Without faults the tag stage lands exactly when it has no AWS tag to add. */
  lemma CalmTagStage(env: Env, w: World, d: DatabaseSpec)
    requires Current(env, w, d) && Calm(env, w.clock, TagStage(env, w, d).0.clock)
    ensures TagStage(env, w, d).1.None? <==> NoForeignTags(env, w, d)
  {
    var backend, wanted := TagsAt(w, ArnOfSpec(env, d)), TagValues(d.tags);
    MirrorSpelledOut(env, w, d);
    if wanted != backend {
      CalmSync(env, w, ArnOfSpec(env, d), wanted, backend);
    }
    assert TouchesAWS(AddedPairs(backend, wanted).Keys) <==> !NoForeignTags(env, w, d);
  }

  // ---------- the put stage ----------

  /** An update call that succeeds clears the drift outside the tags exactly when the spec is admissible. */
  lemma UpdateClears(env: Env, w: World, d: DatabaseSpec)
    requires Current(env, w, d)
    ensures var k := KeyOfSpec(env, d);
            var w' := w.(databases := w.databases[k := Stored(env, k, InputOf(d))]);
            Current(env, w', d) && (Drifts(env, w', d) <==> !Admissible(env, d))
  {
    var k := KeyOfSpec(env, d);
    var w' := w.(databases := w.databases[k := Stored(env, k, InputOf(d))]);
    StoredComesBack(env, d);
    var back := SpecOf(d, Response(k, Stored(env, k, InputOf(d))));
    assert Normal(ReadBack(env, w', d)).(tags := None) == Normal(back).(tags := None);
  }

  lemma SameStoreAndTags(env: Env, w: World, w': World, d: DatabaseSpec)
    requires w'.databases == w.databases && w'.tags == w.tags
    ensures Current(env, w', d) == Current(env, w, d) && Drifts(env, w', d) == Drifts(env, w, d)
  {
    SameStoreSameDrift(env, w, d, w', d);
  }

  /** The put stage fails only for a fault, and then changes nothing. */
  lemma PutStageClears(env: Env, w: World, d: DatabaseSpec)
    requires Current(env, w, d)
    ensures var (w', err) := PutStage(env, w, d);
            && Current(env, w', d) && w'.tags == w.tags
            && err == env.faults(w.clock)
            && (Drifts(env, w', d) <==> if err.None? then !Admissible(env, d) else Drifts(env, w, d))
  {
    var k := KeyOfSpec(env, d);
    var (w', err) := PutStage(env, w, d);
    if err.None? {
      UpdateClears(env, w, d);
      SameStoreAndTags(env, w.(databases := w.databases[k := Stored(env, k, InputOf(d))]), w', d);
    } else {
      SameStoreAndTags(env, w, w', d);
    }
  }

  lemma PutStageLogs(env: Env, w: World, d: DatabaseSpec)
    requires Exists(env, w, d)
    ensures var (w', err) := PutStage(env, w, d);
            && Successes(w'.log) == Successes(w.log) + Flag(err.None?)
            && Writes(w'.log) == Writes(w.log) + Flag(err.None?)
            && GrewSafely(w.log, w'.log)
  {
    var (w', err) := PutStage(env, w, d);
    WritesAppend(w.log, Attempt(UpdateCall(KeyOfSpec(env, d)), map[], err.None?));
    SuccessesAppend(w.log, Attempt(UpdateCall(KeyOfSpec(env, d)), map[], err.None?));
  }

  // ---------- both stages ----------

  lemma StagesConserve(env: Env, w: World, d: DatabaseSpec)
    requires Current(env, w, d)
    ensures var w' := Stages(env, w, d);
            && Current(env, w', d)
            && Debt(env, w', d) + Paid(env, d, w'.log) == Debt(env, w, d) + Paid(env, d, w.log)
  {
    var tagged := TagStage(env, w, d).0;
    TagStageConserves(env, w, d);
    PutStageClears(env, tagged, d);
    PutStageLogs(env, tagged, d);
  }

  /** Whatever fails, an update neither makes a spec repairable nor stops it from being so, and the
      same for the AWS tags that are out of its reach; and while there are such, no put stage comes. */
  lemma StagesKeepProspects(env: Env, w: World, d: DatabaseSpec)
    requires Current(env, w, d)
    ensures var w' := Stages(env, w, d);
            && Exists(env, w', d)
            && NoForeignTags(env, w', d) == NoForeignTags(env, w, d)
            && Repairable(env, w', d) == Repairable(env, w, d)
            && (!NoForeignTags(env, w, d) ==> w'.databases == w.databases)
  {
    TagStageKeepsForeign(env, w, d);
    TagStageConserves(env, w, d);
    PutStageClears(env, TagStage(env, w, d).0, d);
  }

  lemma StagesAreSafe(env: Env, w: World, d: DatabaseSpec)
    requires Current(env, w, d)
    ensures GrewSafely(w.log, Stages(env, w, d).log)
  {
    TagStageIsSafe(env, w, d);
    TagStageConserves(env, w, d);
    PutStageLogs(env, TagStage(env, w, d).0, d);
  }

  /** What an update without faults leaves owed: a drift no update can clear or, with an AWS tag it
      cannot add, the tag call and the update that was not reached. */
  function Leftover(env: Env, w: World, d: DatabaseSpec): nat {
    if NoForeignTags(env, w, d) then Flag(!Repairable(env, w, d)) else 1 + Flag(Drifts(env, w, d))
  }

  /** From tags that are as desired, a put stage made for a drift, or none where there is no drift. */
  lemma CalmPut(env: Env, w: World, d: DatabaseSpec)
    requires Current(env, w, d) && TagsAt(w, ArnOfSpec(env, d)) == TagValues(d.tags)
    requires Drifts(env, w, d) ==> env.faults(w.clock).None?
    ensures var w' := if Drifts(env, w, d) then PutStage(env, w, d).0 else w;
            && Debt(env, w', d) == Flag(!Repairable(env, w, d))
            && Successes(w'.log) == Successes(w.log) + Flag(Drifts(env, w, d))
  {
    PutStageClears(env, w, d);
    PutStageLogs(env, w, d);
    NoTagDebt(TagsAt(w, ArnOfSpec(env, d)), TagValues(d.tags));
  }

  lemma CalmStages(env: Env, w: World, d: DatabaseSpec)
    requires Current(env, w, d) && Calm(env, w.clock, Stages(env, w, d).clock)
    ensures var w' := Stages(env, w, d);
            && Debt(env, w', d) == Leftover(env, w, d)
            && (NoForeignTags(env, w, d) && !Repairable(env, w, d) ==>
                  Successes(w'.log) >= Successes(w.log) + 1)
  {
    StagesTakeTime(env, w, d);
    CalmTagStage(env, w, d);
    if TagStage(env, w, d).1.Some? {
      CalmTagStageRefused(env, w, d);
    } else {
      CalmTagStageLanded(env, w, d);
    }
  }

  lemma CalmTagStageLanded(env: Env, w: World, d: DatabaseSpec)
    requires Current(env, w, d) && Calm(env, w.clock, Stages(env, w, d).clock)
    requires TagStage(env, w, d).1.None?
    ensures var w' := Stages(env, w, d);
            && Debt(env, w', d) == Flag(!Repairable(env, w, d))
            && Successes(w'.log) >= Successes(w.log) + Flag(Drifts(env, w, d))
  {
    var tagged := TagStage(env, w, d).0;
    StagesTakeTime(env, w, d);
    TagStageConserves(env, w, d);
    CalmPut(env, tagged, d);
    TagStageIsSafe(env, w, d);
    SuccessesMonotone(w.log, tagged.log);
  }

  /** Without faults a tag stage that fails has done its untagging, and only the tag call is left. */
  lemma CalmTagStageRefused(env: Env, w: World, d: DatabaseSpec)
    requires Current(env, w, d) && Calm(env, w.clock, TagStage(env, w, d).0.clock)
    requires TagStage(env, w, d).1.Some?
    ensures Debt(env, TagStage(env, w, d).0, d) == 1 + Flag(Drifts(env, w, d))
  {
    var backend, wanted := TagsAt(w, ArnOfSpec(env, d)), TagValues(d.tags);
    var now := TagsAt(TagStage(env, w, d).0, ArnOfSpec(env, d));
    MirrorSpelledOut(env, w, d);
    CalmSync(env, w, ArnOfSpec(env, d), wanted, backend);
    assert now == backend - UntagKeys(backend, wanted);
    UntagPays(backend, wanted);
    TagStageConserves(env, w, d);
  }

  // ---------- the create call ----------

  /** A create call that succeeds leaves nothing owed but, for a spec that is not admissible, an update. */
  lemma CreatedOwes(env: Env, w: World, d: DatabaseSpec)
    requires Faithful(env, w) && PanicFree(d) && CreateDb(env, w, d).1.None?
    ensures var w' := CreateDb(env, w, d).0;
            && Faithful(env, w') && Exists(env, w', d) && Debt(env, w', d) == Flag(!Admissible(env, d))
            && (Drifts(env, w', d) <==> !Admissible(env, d))
            && NoForeignTags(env, w', d)
  {
    var w' := CreateDb(env, w, d).0;
    CreatedReadsBack(env, w, d);
    DriftByParts(d, ReadBack(env, w', d));
    var backend := TagsAt(w', ArnOfSpec(env, d));
    PointerThenPlain(backend);
    assert WantedTags(d, backend) == backend;
    NoTagDebt(backend, backend);
  }

  lemma CreateLogs(env: Env, w: World, d: DatabaseSpec)
    ensures var (w', err) := CreateDb(env, w, d);
            && Successes(w'.log) == Successes(w.log) + Flag(err.None?)
            && Writes(w'.log) == Writes(w.log) + Flag(err.None?)
            && GrewSafely(w.log, w'.log)
  {
    var w' := CreateDb(env, w, d).0;
    SuccessesAppend(w.log, w'.log[|w.log|]);
    WritesAppend(w.log, w'.log[|w.log|]);
  }

  lemma CreateConserves(env: Env, w: World, d: DatabaseSpec)
    requires Faithful(env, w) && PanicFree(d)
    ensures var w' := CreateDb(env, w, d).0;
            && Faithful(env, w')
            && GrewSafely(w.log, w'.log)
            && Debt(env, w', d) + Paid(env, d, w'.log) == Debt(env, w, d) + Paid(env, d, w.log)
            && (Exists(env, w, d) ==> Exists(env, w', d))
  {
    var (w', err) := CreateDb(env, w, d);
    CreateLogs(env, w, d);
    if err.None? {
      CreatedOwes(env, w, d);
    } else {
      SameStoreSameDrift(env, w, d, w', d);
    }
  }

  lemma CreateKeepsProspects(env: Env, w: World, d: DatabaseSpec)
    requires Faithful(env, w) && PanicFree(d)
    ensures var w' := CreateDb(env, w, d).0;
            && NoForeignTags(env, w', d) == NoForeignTags(env, w, d)
            && Repairable(env, w', d) == Repairable(env, w, d)
            && (!NoForeignTags(env, w, d) ==> w'.databases == w.databases)
  {
    var (w', err) := CreateDb(env, w, d);
    if err.None? {
      CreatedOwes(env, w, d);
      assert !TouchesAWS(TagValues(d.tags).Keys);
      assert !Exists(env, w, d);
    } else {
      SameStoreSameDrift(env, w, d, w', d);
    }
  }

  /** Without faults a database that is missing is created exactly when it has a name and there is no AWS
      tag to create. */
  lemma CalmCreate(env: Env, w: World, d: DatabaseSpec)
    requires Faithful(env, w) && PanicFree(d) && !Exists(env, w, d) && env.faults(w.clock).None?
    ensures var (w', err) := CreateDb(env, w, d);
            && (err.None? <==> NoForeignTags(env, w, d) && d.name.Some?)
            && Debt(env, w', d) == Leftover(env, w, d)
            && Successes(w'.log) == Successes(w.log) + Flag(err.None?)
  {
    assert TouchesAWS(TagValues(d.tags).Keys) <==> !NoForeignTags(env, w, d);
    CreateLogs(env, w, d);
    if CreateDb(env, w, d).1.None? {
      CreatedOwes(env, w, d);
    }
  }

  // ---------- which calls create ----------

  /** The log grew, and not by a create call. */
  ghost predicate CreatesNothing(was: seq<Attempt>, now: seq<Attempt>) {
    was <= now && forall i | |was| <= i < |now| :: !now[i].call.CreateCall?
  }

  lemma UntagCreatesNothing(env: Env, w: World, arn: string, keys: set<string>)
    ensures CreatesNothing(w.log, ServeUntagResource(env, w, arn, keys).0.log)
  {
  }

  lemma TagCreatesNothing(env: Env, w: World, arn: string, tags: Plain)
    ensures CreatesNothing(w.log, ServeTagResource(env, w, arn, tags).0.log)
  {
  }

  lemma TagStageCreatesNothing(env: Env, w: World, d: DatabaseSpec)
    ensures CreatesNothing(w.log, TagStage(env, w, d).0.log)
  {
    var arn := ArnOfSpec(env, d);
    var backend, wanted := TagsAt(w, arn), TagValues(d.tags);
    var removed, added := UntagKeys(backend, wanted), AddedPairs(backend, wanted);
    var untagged := if removed == {} then w else ServeUntagResource(env, w, arn, removed).0;
    UntagCreatesNothing(env, w, arn, removed);
    TagCreatesNothing(env, untagged, arn, added);
  }

  lemma StagesCreateNothing(env: Env, w: World, d: DatabaseSpec)
    ensures CreatesNothing(w.log, Stages(env, w, d).log)
  {
    var tagged := TagStage(env, w, d).0;
    TagStageCreatesNothing(env, w, d);
    assert CreatesNothing(tagged.log, PutStage(env, tagged, d).0.log);
  }

  // ---------- what is left over ----------

  lemma TimeLeavesTheSame(env: Env, w: World, w1: World, d: DatabaseSpec)
    requires w1 == w.(clock := w1.clock)
    ensures Exists(env, w1, d) == Exists(env, w, d) && NoForeignTags(env, w1, d) == NoForeignTags(env, w, d)
    ensures Leftover(env, w1, d) == Leftover(env, w, d) && Debt(env, w1, d) == Debt(env, w, d)
  {
    SameStoreSameDrift(env, w, d, w1, d);
  }

  lemma OwesLeftover(env: Env, w: World, d: DatabaseSpec)
    ensures Debt(env, w, d) >= Leftover(env, w, d)
  {
    if Exists(env, w, d) && !NoForeignTags(env, w, d) {
      var backend := TagsAt(w, ArnOfSpec(env, d));
      var k :| k in TagValues(d.tags) && IsAWS(k) && k !in backend;
      assert k in AddedPairs(backend, WantedTags(d, backend));
    }
  }

  /** For a spec without a catalog, with a name not in its stored form or with a nil parameter value no
      stored database helps; one that leaves out table permissions agrees with an empty list. */
  lemma RepairableExactly(env: Env, w: World, d: DatabaseSpec)
    requires Faithful(env, w) && PanicFree(d)
    ensures Repairable(env, w, d) <==>
            || Admissible(env, d)
            || (&& Exists(env, w, d) && !Drifts(env, w, d)
                && d.catalogID.Some? && Fold(d.name.value) == d.name.value
                && (d.parameters.Some? ==> NoNilValues(d.parameters.value))
                && d.tableDefaultPermissions.None?
                && w.databases[KeyOfSpec(env, d)].createTableDefaultPermissions == Some([]))
  {
    if Exists(env, w, d) {
      var back := ReadBack(env, w, d);
      var stored := w.databases[KeyOfSpec(env, d)];
      if !Drifts(env, w, d) {
        assert Normal(d).(tags := None) == Normal(back).(tags := None);
        assert Normal(d).catalogID == Normal(back).catalogID && Normal(d).name == Normal(back).name;
        assert Normal(d).parameters == Normal(back).parameters;
        assert |NormalPermissions(back.tableDefaultPermissions.value)| == |stored.createTableDefaultPermissions.value|;
        if d.tableDefaultPermissions.None? {
          assert |NormalPermissions(d.tableDefaultPermissions.GetOr([]))| == 0;
        }
      }
    }
  }
}
