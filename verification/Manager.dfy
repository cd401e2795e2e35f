/** pkg/resource/database/manager.go: the operations the reconciler calls. */
module Manager {
  import opened Types
  import opened Tags
  import opened Conditions
  import opened Glue
  import opened Deltas
  import opened Resource
  import opened Sdk

  // ---------- tags in place ----------

  /** The desired spec after a read that observed `latest`. */
  function MirroredSpec(desired: DatabaseSpec, latest: DatabaseSpec): DatabaseSpec {
    desired.(tags := Some(MirrorTags(desired.tags, latest.tags)))
  }

  /** `mirrorAWSTags(a, b)`; the callers' a is never nil. */
  method MirrorAWSTags(a: Database, b: Database?)
    modifies a`spec
    ensures a.spec == if b == null then old(a.spec) else MirroredSpec(old(a.spec), old(b.spec))
    ensures a.Conds() == old(a.Conds()) && (b != null ==> b.Conds() == old(b.Conds()))
  {
    if b == null {
      return;
    }
    var tags := MirroredTags(a.spec.tags, b.spec.tags);
    a.spec := a.spec.(tags := Some(tags));
  }

  method MirroredTags(desired: Option<StringMap>, latest: Option<StringMap>) returns (tags: StringMap)
    ensures tags == MirrorTags(desired, latest)
  {
    var desiredTags, desiredTagKeyOrder := ConvertToOrderedACKTags(desired);
    var latestTags, _ := ConvertToOrderedACKTags(latest);
    SyncAWSTags(desiredTags, latestTags);
    tags := FromACKTags(desiredTags, desiredTagKeyOrder);
  }

  method EnsureTags(r: Database, defaultTags: Plain)
    modifies r`spec
    ensures r.spec == old(r.spec).(tags := Some(EnsuredTags(old(r.spec.tags), defaultTags)))
  {
    var resourceTags, keyOrder := ConvertToOrderedACKTags(r.spec.tags);
    var merged := new AckTags();
    merged.m := Merge(resourceTags.m, defaultTags);
    var tags := FromACKTags(merged, keyOrder);
    r.spec := r.spec.(tags := Some(tags));
  }

  method FilterSystemTags(r: Database, systemTags: seq<string>)
    modifies r`spec
    ensures r.spec == old(r.spec).(tags := Some(FilterTags(old(r.spec.tags), systemTags)))
  {
    var resourceTags, keyOrder := ConvertToOrderedACKTags(r.spec.tags);
    IgnoreSystemTags(resourceTags, systemTags);
    var tags := FromACKTags(resourceTags, keyOrder);
    r.spec := r.spec.(tags := Some(tags));
  }

  // ---------- ReadOne, Create, Update ----------

  /** How each operation ends: `onError` on the resource at hand, or `onSuccess` on the result. */
  method Conclude(rm: ResourceManager, r: Database, result: Database?, e: Option<Error>, ghost was: seq<Cond>)
    returns (res: Database, err: Option<Error>)
    requires e.Some? <==> result == null
    requires was == if e.Some? then r.Conds() else result.Conds()
    ensures res == result || (fresh(res) && fresh(res.Entries()))
    ensures e.None? ==> (res == result <==> !ReportsUpdate(was, None))
    ensures res.spec == if e.Some? then r.spec else result.spec
    ensures res.metadata == (if e.Some? then Some(Defaulted(rm.Id(), r.metadata))
                             else if res == result then result.metadata else Some(Defaulted(rm.Id(), result.metadata)))
    ensures res.Conds() == Updated(was, e)
    ensures err == if e.Some? then Some(ErrorAfter(was, e.value)) else None
  {
    if e.Some? {
      var res1, out := OnError(rm, r, e.value);
      return res1, Some(out);
    }
    var res1 := OnSuccess(rm, result);
    return res1, None;
  }

  /** On an error nothing of the argument changes; on success only its tags do, and the result's
      metadata is complete, so the ARN that `syncTags` and the parts that `databaseARN`
      dereference are there. */
  method ReadOne(rm: ResourceManager, r: Database) returns (res: Database, err: Option<Error>)
    requires Faithful(rm.sdkapi.env, rm.sdkapi.w)
    modifies rm.sdkapi, r`spec
    ensures var answer := Find(rm.sdkapi.env, rm.Id(), old(rm.sdkapi.w), old(r.spec), r.metadata);
            && rm.sdkapi.w == answer.0
            && fresh(res) && fresh(res.Entries())
            && match answer.1
               case Ok(observed) =>
                 && err.None?
                 && r.spec == MirroredSpec(old(r.spec), observed.spec)
                 && res.spec == observed.spec
                 && res.metadata == Some(observed.metadata)
                 && Complete(observed.metadata)
                 && res.Conds() == Updated(old(r.Conds()), None)
               case Err(e) =>
                 && err == Some(ErrorAfter(old(r.Conds()), e))
                 && r.spec == old(r.spec)
                 && res.spec == r.spec
                 && res.metadata == Some(Defaulted(rm.Id(), r.metadata))
                 && res.Conds() == Updated(old(r.Conds()), Some(e))
  {
    ghost var was := r.Conds();
    var observed, e := Observe(rm, r);
    res, err := Conclude(rm, r, observed, e, was);
  }

  /** The read itself, with the AWS tags it finds mirrored into the argument. */
  method Observe(rm: ResourceManager, r: Database) returns (observed: Database?, e: Option<Error>)
    requires Faithful(rm.sdkapi.env, rm.sdkapi.w)
    modifies rm.sdkapi, r`spec
    ensures r.Conds() == old(r.Conds())
    ensures var answer := Find(rm.sdkapi.env, rm.Id(), old(rm.sdkapi.w), old(r.spec), r.metadata);
            && rm.sdkapi.w == answer.0
            && (answer.1.Err? ==> observed == null && e == Some(answer.1.error) && r.spec == old(r.spec))
            && (answer.1.Ok? ==>
                  && e.None? && observed != null && fresh(observed) && fresh(observed.Entries())
                  && observed.spec == answer.1.value.spec && observed.metadata == Some(answer.1.value.metadata)
                  && observed.Conds() == old(r.Conds())
                  && r.spec == MirroredSpec(old(r.spec), observed.spec))
  {
    observed, e := SdkFind(rm, r);
    MirrorAWSTags(r, observed);
  }

  method Create(rm: ResourceManager, r: Database) returns (res: Database, err: Option<Error>)
    requires PanicFree(r.spec)
    modifies rm.sdkapi
    ensures var answer := CreateDb(rm.sdkapi.env, old(rm.sdkapi.w), r.spec);
            && rm.sdkapi.w == answer.0
            && fresh(res) && res.spec == r.spec
            && var m := Defaulted(rm.Id(), r.metadata);
            && (answer.1.None? ==>
                  && err.None? && r.spec.name.Some?
                  && res.metadata == Some(m.(arn := Some(KoARN(m, r.spec.name.value))))
                  && res.Conds() == Updated(old(r.Conds()), None))
            && (answer.1.Some? ==>
                  && err == Some(ErrorAfter(old(r.Conds()), answer.1.value))
                  && res.metadata == Some(m)
                  && res.Conds() == Updated(old(r.Conds()), answer.1))
  {
    ghost var was := r.Conds();
    var created, e := SdkCreate(rm, r);
    res, err := Conclude(rm, r, created, e, was);
  }

  method Update(rm: ResourceManager, desired: Database, latest: Database, delta: Delta)
    returns (res: Database, err: Option<Error>)
    requires PanicFree(desired.spec)
    requires DifferentAt(delta.differences, TAGS) ==> latest.metadata.Some? && latest.metadata.value.arn.Some?
    modifies rm.sdkapi
    ensures var answer := UpdateDb(
              rm.sdkapi.env, old(rm.sdkapi.w), desired.spec, latest.spec, ARNOf(latest.metadata), delta.differences);
            && rm.sdkapi.w == answer.0
            && (answer.1.None? ==>
                  && err.None? && res.spec == desired.spec
                  && (if DifferentExcept(delta.differences, TAGS) || ReportsUpdate(old(desired.Conds()), None)
                      then res != desired && res.metadata == Some(Defaulted(rm.Id(), desired.metadata))
                      else res == desired)
                  && res.Conds() == Updated(old(desired.Conds()), None))
            && (answer.1.Some? ==>
                  && err == Some(ErrorAfter(old(latest.Conds()), answer.1.value))
                  && res.spec == latest.spec && res.metadata == Some(Defaulted(rm.Id(), latest.metadata))
                  && res.Conds() == Updated(old(latest.Conds()), answer.1))
  {
    ghost var answer := UpdateDb(
      rm.sdkapi.env, rm.sdkapi.w, desired.spec, latest.spec, ARNOf(latest.metadata), delta.differences);
    ghost var was := if answer.1.Some? then latest.Conds() else desired.Conds();
    var updated, e := SdkUpdate(rm, desired, latest, delta);
    res, err := Conclude(rm, latest, updated, e, was);
  }

  // ---------- LateInitialize ----------

  /** `lateInitializeFromReadOneOutput`: the two fields, where the user left them out. */
  function LateInitialized(latest: DatabaseSpec, observed: DatabaseSpec): DatabaseSpec {
    latest.(
      catalogID := if latest.catalogID.None? then observed.catalogID else latest.catalogID,
      tableDefaultPermissions :=
        if latest.tableDefaultPermissions.None? then observed.tableDefaultPermissions
        else latest.tableDefaultPermissions)
  }

  method LateInitializeFromReadOneOutput(observed: Database, latest: Database) returns (res: Database)
    ensures fresh(res) && fresh(res.Entries()) && Distinct(res.Entries())
    ensures res.spec == LateInitialized(latest.spec, observed.spec)
    ensures res.metadata == latest.metadata && res.Conds() == old(latest.Conds())
  {
    var observedKo := observed.DeepCopy();
    var latestKo := latest.DeepCopy();
    if observedKo.spec.catalogID.Some? && latestKo.spec.catalogID.None? {
      latestKo.spec := latestKo.spec.(catalogID := observedKo.spec.catalogID);
    }
    if observedKo.spec.tableDefaultPermissions.Some? && latestKo.spec.tableDefaultPermissions.None? {
      latestKo.spec := latestKo.spec.(tableDefaultPermissions := observedKo.spec.tableDefaultPermissions);
    }
    return latestKo;
  }

  /** The condition helpers of the runtime set the first entry of a type, appending one if needed. */
  method SetFirst(ko: Database, t: ConditionType, s: ConditionStatus, m: Option<Message>)
    requires Distinct(ko.Entries())
    modifies ko`conditions, ko.Entries()
    ensures ko.Conds() == PutFirst(old(ko.Conds()), t, s, m)
    ensures Distinct(ko.Entries())
    ensures forall i :: 0 <= i < |ko.Entries()| ==> ko.Entries()[i] in old(ko.Entries()) || fresh(ko.Entries()[i])
  {
    var cs := ko.Entries();
    ghost var was := ko.Conds();
    var i := 0;
    while i < |cs| && cs[i].v.ctype != t
      invariant 0 <= i <= |cs|
      invariant forall j :: 0 <= j < i ==> was[j].ctype != t
    {
      i := i + 1;
    }
    FirstOfIs(was, t, i);
    if i == |cs| {
      var c := new Condition(Cond(t, s, m));
      ko.conditions := Some(cs + [c]);
      assert forall j | 0 <= j < |cs| :: CondValues(cs + [c])[j] == was[j];
      assert ko.Conds() == was + [Cond(t, s, m)];
    } else {
      SetEntry(cs, i, cs[i], s, m);
      assert ko.Conds() == was[i := Cond(t, s, m)];
    }
  }

  const LATE_FAILED := Note("Unable to complete Read operation required for late initialization")
  const LATE_DONE := Note("Late initialization successful")

  /** The condition list after the read of `LateInitialize` failed. */
  function LateInitFailed(cs: seq<Cond>): seq<Cond> {
    var late := PutFirst(cs, TypeLateInitialized, ConditionFalse, Some(LATE_FAILED));
    PutFirst(late, TypeResourceSynced, ConditionFalse, None)
  }

  /** The resource passed in is left alone, although the read works on, and changes, a copy of it. */
  method LateInitialize(rm: ResourceManager, latest: Database) returns (res: Database, err: Option<Error>)
    requires Faithful(rm.sdkapi.env, rm.sdkapi.w)
    modifies rm.sdkapi
    ensures fresh(res) && res.metadata == latest.metadata
    ensures var answer := Find(rm.sdkapi.env, rm.Id(), old(rm.sdkapi.w), latest.spec, latest.metadata);
            && rm.sdkapi.w == answer.0
            && match answer.1
               case Ok(observed) =>
                 && err.None?
                 && res.spec == LateInitialized(MirroredSpec(latest.spec, observed.spec), observed.spec)
                 && res.Conds() == PutFirst(old(latest.Conds()), TypeLateInitialized, ConditionTrue, Some(LATE_DONE))
               case Err(e) =>
                 && err == Some(ErrorAfter(old(latest.Conds()), e))
                 && res.spec == latest.spec
                 && res.Conds() == LateInitFailed(old(latest.Conds()))
  {
    var latestCopy, observed, e := ReadCopy(rm, latest);
    if e.Some? {
      MarkLateInitFailed(latestCopy);
      return latestCopy, e;
    }
    res := LateInitializeAndMark(observed, latestCopy);
    err := None;
  }

  method LateInitializeAndMark(observed: Database, latest: Database) returns (res: Database)
    ensures fresh(res)
    ensures res.spec == LateInitialized(latest.spec, observed.spec) && res.metadata == latest.metadata
    ensures res.Conds() == PutFirst(old(latest.Conds()), TypeLateInitialized, ConditionTrue, Some(LATE_DONE))
  {
    res := LateInitializeFromReadOneOutput(observed, latest);
    SetFirst(res, TypeLateInitialized, ConditionTrue, Some(LATE_DONE));
  }

  /** The read of `LateInitialize`, made on a copy whose tags it may change. */
  method ReadCopy(rm: ResourceManager, latest: Database)
    returns (latestCopy: Database, observed: Database, e: Option<Error>)
    requires Faithful(rm.sdkapi.env, rm.sdkapi.w)
    modifies rm.sdkapi
    ensures fresh(latestCopy) && fresh(latestCopy.Entries()) && Distinct(latestCopy.Entries()) && fresh(observed)
    ensures latestCopy.metadata == latest.metadata && latestCopy.Conds() == old(latest.Conds())
    ensures var answer := Find(rm.sdkapi.env, rm.Id(), old(rm.sdkapi.w), latest.spec, latest.metadata);
            && rm.sdkapi.w == answer.0
            && (answer.1.Ok? ==>
                  && e.None? && observed.spec == answer.1.value.spec
                  && latestCopy.spec == MirroredSpec(latest.spec, answer.1.value.spec))
            && (answer.1.Err? ==>
                  && e == Some(ErrorAfter(old(latest.Conds()), answer.1.error))
                  && latestCopy.spec == latest.spec)
  {
    latestCopy := latest.DeepCopy();
    label copied:
    observed, e := ReadOne(rm, latestCopy);
    CondsKept@copied(latestCopy);
  }

  method MarkLateInitFailed(ko: Database)
    requires Distinct(ko.Entries())
    modifies ko`conditions, ko.Entries()
    ensures ko.Conds() == LateInitFailed(old(ko.Conds()))
  {
    SetFirst(ko, TypeLateInitialized, ConditionFalse, Some(LATE_FAILED));
    SetFirst(ko, TypeResourceSynced, ConditionFalse, None);
  }

  // ---------- properties of late initialisation ----------

  /** Against the observation, late initialisation removes exactly the CatalogID and the
      TableDefaultPermissions paths whose field was nil. */
  lemma LateInitRemovesExactly(latest: DatabaseSpec, observed: DatabaseSpec, p: Path)
    ensures p in DeltaPaths(LateInitialized(latest, observed), observed) <==>
            && p in DeltaPaths(latest, observed)
            && !(p == CATALOG_ID && latest.catalogID.None?)
            && !(p == PERMISSIONS && latest.tableDefaultPermissions.None?)
  {
    PathsOf(latest, observed, p);
    PathsOf(LateInitialized(latest, observed), observed, p);
  }

  /** Only AWS-owned tags differ, and the spec has none that the observation lacks. */
  predicate DifferInAwsTagsOnly(latest: Option<StringMap>, observed: Option<StringMap>) {
    && WithoutSystemTags(TagValues(latest), []) == WithoutSystemTags(TagValues(observed), [])
    && AwsPart(TagValues(latest)).Keys <= TagValues(observed).Keys
  }

  /** What the whole operation removes, since its read also mirrors AWS tags: those two paths, and the
      tags' path exactly when only AWS-owned tags differed. */
  lemma LateInitOperationRemovesExactly(latest: DatabaseSpec, observed: DatabaseSpec, p: Path)
    ensures p in DeltaPaths(LateInitialized(MirroredSpec(latest, observed), observed), observed) <==>
            && p in DeltaPaths(latest, observed)
            && !(p == CATALOG_ID && latest.catalogID.None?)
            && !(p == PERMISSIONS && latest.tableDefaultPermissions.None?)
            && !(p == TAGS && DifferInAwsTagsOnly(latest.tags, observed.tags))
  {
    LateInitRemovesExactly(MirroredSpec(latest, observed), observed, p);
    MirrorRemovesExactly(latest, observed, p);
  }

  lemma MirrorRemovesExactly(latest: DatabaseSpec, observed: DatabaseSpec, p: Path)
    ensures p in DeltaPaths(MirroredSpec(latest, observed), observed) <==>
            p in DeltaPaths(latest, observed) && !(p == TAGS && DifferInAwsTagsOnly(latest.tags, observed.tags))
  {
    TagsPathOf(latest, observed, p);
    TagsPathOf(MirroredSpec(latest, observed), observed, p);
    MirrorValues(latest.tags, observed.tags);
    MirrorLands(TagValues(latest.tags), TagValues(observed.tags));
  }

  lemma MirrorLands(latest: Plain, observed: Plain)
    ensures latest + AwsPart(observed) == observed <==>
            WithoutSystemTags(latest, []) == WithoutSystemTags(observed, []) && AwsPart(latest).Keys <= observed.Keys
  {
    var x, y := WithoutSystemTags(latest, []), WithoutSystemTags(observed, []);
    var mirrored := latest + AwsPart(observed);
    assert WithoutSystemTags(mirrored, []) == x;
    if x == y && AwsPart(latest).Keys <= observed.Keys {
      assert forall k | k in latest :: if IsAWS(k) then k in AwsPart(latest) else k in x;
      assert forall k | k in observed :: if IsAWS(k) then k in AwsPart(observed) else k in y;
      assert mirrored.Keys == observed.Keys;
      assert forall k | k in observed && !IsAWS(k) :: mirrored[k] == x[k];
    }
    if mirrored == observed {
      assert forall k | k in AwsPart(latest) :: k in mirrored;
    }
  }

  /** The tags decide their own path and no other. */
  lemma TagsPathOf(a: DatabaseSpec, b: DatabaseSpec, p: Path)
    ensures p in DeltaPaths(a, b) <==>
            (p == TAGS && TagValues(a.tags) != TagValues(b.tags)) || p in DeltaPaths(a.(tags := b.tags), b)
    ensures TAGS !in DeltaPaths(a.(tags := b.tags), b)
  {
    PointerThenPlain(TagValues(a.tags));
    PointerThenPlain(TagValues(b.tags));
    var x, y := Normal(a), Normal(b);
    assert Normal(a.(tags := b.tags)) == x.(tags := y.tags);
    StructTagsAway(x, y);
    assert ScalarPaths([], x.(tags := y.tags), y) == ScalarPaths([], x, y);
    ScalarPathsAway(x, y);
    assert p in DeltaPaths(a, b) <==>
           || p in ScalarPaths([], x, y)
           || p in At(x.parameters != y.parameters, PARAMETERS)
           || p in At(x.tableDefaultPermissions != y.tableDefaultPermissions, PERMISSIONS)
           || p in At(x.tags != y.tags, TAGS)
           || p in TargetPaths(x.targetDatabase, y.targetDatabase);
  }

  lemma StructTagsAway(x: DatabaseSpec, y: DatabaseSpec)
    ensures TAGS !in TargetPaths(x.targetDatabase, y.targetDatabase)
    ensures TAGS !in ScalarPaths([], x, y)
  {
    OptionalStructsAway(x, y, TagsField);
    ScalarPathsAway(x, y);
  }

  /** The paths other than the two that late initialisation is about. */
  function OtherPaths(x: DatabaseSpec, y: DatabaseSpec): seq<Path> {
    OtherStrings(x, y) +
    FederatedPaths(x.federatedDatabase, y.federatedDatabase) +
    TargetPaths(x.targetDatabase, y.targetDatabase)
  }

  function OtherStrings(x: DatabaseSpec, y: DatabaseSpec): seq<Path> {
    At(x.description != y.description, DESCRIPTION) +
    At(x.locationURI != y.locationURI, LOCATION) +
    At(x.name != y.name, NAME) +
    At(x.parameters != y.parameters, PARAMETERS) +
    At(x.tags != y.tags, TAGS)
  }

  lemma PathsOf(a: DatabaseSpec, b: DatabaseSpec, p: Path)
    ensures var x, y := Normal(a), Normal(b);
            && (p in DeltaPaths(a, b) <==>
                  || (p == CATALOG_ID && x.catalogID != y.catalogID)
                  || (p == PERMISSIONS && x.tableDefaultPermissions != y.tableDefaultPermissions)
                  || p in OtherPaths(x, y))
            && CATALOG_ID !in OtherPaths(x, y)
            && PERMISSIONS !in OtherPaths(x, y)
  {
    var x, y := Normal(a), Normal(b);
    assert p in ScalarPaths([], x, y) <==>
           || p in At(x.catalogID != y.catalogID, CATALOG_ID)
           || p in At(x.description != y.description, DESCRIPTION)
           || p in FederatedPaths(x.federatedDatabase, y.federatedDatabase)
           || p in At(x.locationURI != y.locationURI, LOCATION)
           || p in At(x.name != y.name, NAME);
    assert CATALOG_ID !in OtherStrings(x, y) && PERMISSIONS !in OtherStrings(x, y);
    StructPathsAreDeeper(x, y);
  }

  lemma StructPathsAreDeeper(x: DatabaseSpec, y: DatabaseSpec)
    ensures CATALOG_ID !in FederatedPaths(x.federatedDatabase, y.federatedDatabase)
    ensures PERMISSIONS !in FederatedPaths(x.federatedDatabase, y.federatedDatabase)
    ensures CATALOG_ID !in TargetPaths(x.targetDatabase, y.targetDatabase)
    ensures PERMISSIONS !in TargetPaths(x.targetDatabase, y.targetDatabase)
  {
    OptionalStructsAway(x, y, CatalogIDField);
    OptionalStructsAway(x, y, PermissionsField);
  }

  /** Late initialisation replaces the two fields and nothing else, each by what was observed where it was nil;
      a value the user set is never overwritten, a second pass over any later observation keeps
      what the first one filled in, and over the same observation changes nothing. */
  lemma LateInitKeeps(latest: DatabaseSpec, first: DatabaseSpec, second: DatabaseSpec)
    ensures var once := LateInitialized(latest, first);
            && once == latest.(catalogID := once.catalogID, tableDefaultPermissions := once.tableDefaultPermissions)
            && once.catalogID == (if latest.catalogID.Some? then latest.catalogID else first.catalogID)
            && once.tableDefaultPermissions ==
               (if latest.tableDefaultPermissions.Some? then latest.tableDefaultPermissions
                else first.tableDefaultPermissions)
            && LateInitialized(once, first) == once
            && (first.catalogID.Some? && first.tableDefaultPermissions.Some? ==> LateInitialized(once, second) == once)
  {
  }

  /** What a failed read leaves in the condition list: LateInitialized False with its message, ResourceSynced
      False without one, both in their first entries, and every other entry as it was. */
  lemma LateInitFailureIsMarked(cs: seq<Cond>)
    ensures var now := LateInitFailed(cs);
            var (l, y) := (FirstOf(now, TypeLateInitialized), FirstOf(now, TypeResourceSynced));
            && l < |now| && now[l].status == ConditionFalse && now[l].message == Some(LATE_FAILED)
            && y < |now| && now[y].status == ConditionFalse && now[y].message == None
            && |cs| <= |now| <= |cs| + 2
            && forall j | 0 <= j < |cs| && j != l && j != y :: now[j] == cs[j]
  {
    PutFirstSays(cs, TypeLateInitialized, ConditionFalse, Some(LATE_FAILED));
    var late := PutFirst(cs, TypeLateInitialized, ConditionFalse, Some(LATE_FAILED));
    PutFirstSays(late, TypeResourceSynced, ConditionFalse, None);
  }
}
