/** What a spec looks like after it was sent to the service, stored and read back. */
module RoundTrip {
  import opened Types
  import opened Tags
  import opened Identifiers
  import opened Glue
  import opened Deltas
  import opened Resource
  import opened Sdk
  import opened Manager

  /** The specs that come back as they were sent: the name is already in its stored form, the
      catalog is named, no parameter value is nil, and permissions are given unless the service
      has no default for them. */
  predicate Admissible(env: Env, d: DatabaseSpec) {
    && d.name.Some? && Fold(d.name.value) == d.name.value
    && d.catalogID.Some?
    && (d.parameters.Some? ==> NoNilValues(d.parameters.value))
    && (d.tableDefaultPermissions.None? ==> env.defaultPermissions == [])
  }

  /** The metadata the controller works with names the partition, region and account of the
      service: what is not set yet is filled in from the manager. */
  predicate Located(env: Env, id: Identity, md: Option<ResourceMetadata>) {
    var m := Defaulted(id, md);
    && m.partition.value == env.home.partition && m.region.value == env.home.region
    && m.ownerAccountID.value == env.home.account
  }

  function KeyOfSpec(env: Env, d: DatabaseSpec): Key {
    KeyOf(env, d.catalogID, d.name.GetOr(""))
  }

  function ArnOfSpec(env: Env, d: DatabaseSpec): string {
    ArnOf(env, KeyOfSpec(env, d).name)
  }

  predicate Exists(env: Env, w: World, d: DatabaseSpec) {
    d.name.Some? && KeyOfSpec(env, d) in w.databases
  }

  /** The spec a read of an existing database returns. */
  function ReadBack(env: Env, w: World, d: DatabaseSpec): DatabaseSpec
    requires Exists(env, w, d)
  {
    var k := KeyOfSpec(env, d);
    SpecOf(d, Response(k, w.databases[k])).(tags := Some(PointerMap(TagsAt(w, ArnOfSpec(env, d)))))
  }

  /** Each part of the metadata on its own: what is set stays, what is not is the manager's. */
  lemma LocatedByManager(env: Env, id: Identity, md: ResourceMetadata)
    ensures Defaulted(id, None) == ResourceMetadata(None, Some(id.account), Some(id.region), Some(id.partition))
    ensures var m := Defaulted(id, Some(md));
            && m.arn == md.arn
            && m.ownerAccountID == (if md.ownerAccountID.Some? then md.ownerAccountID else Some(id.account))
            && m.region == (if md.region.Some? then md.region else Some(id.region))
            && m.partition == (if md.partition.Some? then md.partition else Some(id.partition))
    ensures Located(env, id, None) <==> id == env.home
    ensures md.region.Some? && md.partition.Some? && md.ownerAccountID.Some? ==>
              (Located(env, id, Some(md)) <==>
                 env.home == Identity(md.partition.value, md.region.value, md.ownerAccountID.value))
  {
  }

  // ---------- what is sent ----------

  /** What the store holds for a database once a create or an update call for the spec succeeded:
      every field of the spec under its own name, pointers replaced by what they point to. */
  ghost predicate Holds(env: Env, stored: DatabaseInput, d: DatabaseSpec) {
    && stored.name == Some(Fold(d.name.GetOr("")))
    && stored.description == d.description && stored.locationUri == d.locationURI
    && stored.federatedDatabase == d.federatedDatabase && stored.targetDatabase == d.targetDatabase
    && (stored.parameters.Some? <==> d.parameters.Some?)
    && (d.parameters.Some? ==>
          && stored.parameters.value.Keys == d.parameters.value.Keys
          && forall k | k in d.parameters.value :: stored.parameters.value[k] == d.parameters.value[k].GetOr(""))
    && stored.createTableDefaultPermissions.Some?
    && (d.tableDefaultPermissions.None? ==> stored.createTableDefaultPermissions.value == env.defaultPermissions)
    && (d.tableDefaultPermissions.Some? ==>
          && |stored.createTableDefaultPermissions.value| == |d.tableDefaultPermissions.value|
          && forall i | 0 <= i < |d.tableDefaultPermissions.value| ::
               HoldsEntry(stored.createTableDefaultPermissions.value[i], d.tableDefaultPermissions.value[i]))
  }

  ghost predicate HoldsEntry(sent: SdkPrincipalPermissions, p: Option<PrincipalPermissions>) {
    && p.Some? && sent.principal == p.value.principal
    && (sent.permissions.Some? <==> p.value.permissions.Some?)
    && (p.value.permissions.Some? ==>
          && |sent.permissions.value| == |p.value.permissions.value|
          && forall j | 0 <= j < |sent.permissions.value| ::
               p.value.permissions.value[j] == Some(sent.permissions.value[j]))
  }

  lemma InputHolds(env: Env, d: DatabaseSpec)
    requires PanicFree(d) && d.name.Some?
    ensures Holds(env, Stored(env, KeyOfSpec(env, d), InputOf(d)), d)
  {
  }

  /** A create call that succeeds leaves the spec in the store, with its tags under the database's ARN,
      and touches nothing else; an update call that succeeds replaces the whole stored input. */
  lemma WritesLeaveTheSpec(env: Env, w: World, d: DatabaseSpec)
    requires PanicFree(d)
    ensures var (w', err) := CreateDb(env, w, d);
            err.None? ==>
              && !Exists(env, w, d) && Exists(env, w', d)
              && Holds(env, w'.databases[KeyOfSpec(env, d)], d)
              && w'.databases == w.databases[KeyOfSpec(env, d) := w'.databases[KeyOfSpec(env, d)]]
              && w'.tags == w.tags[ArnOfSpec(env, d) := TagValues(d.tags)]
    ensures var (w', err) := ServeUpdateDatabase(env, w, d.catalogID, d.name, InputOf(d));
            err.None? ==>
              && Exists(env, w, d) && Exists(env, w', d)
              && Holds(env, w'.databases[KeyOfSpec(env, d)], d)
              && w'.databases == w.databases[KeyOfSpec(env, d) := w'.databases[KeyOfSpec(env, d)]]
              && w'.tags == w.tags
  {
    if d.name.Some? {
      InputHolds(env, d);
    }
  }

  /** When a create call fails, with which error, and that it then changes nothing. */
  lemma CreateAnswers(env: Env, w: World, d: DatabaseSpec)
    ensures var (w', err) := CreateDb(env, w, d);
            && (env.faults(w.clock).Some? ==> err == env.faults(w.clock))
            && (env.faults(w.clock).None? ==>
                  if d.name.None? || exists k | k in TagValues(d.tags) :: "aws:" <= k
                  then err == Some(ApiError("InvalidInputException"))
                  else err == if Exists(env, w, d) then Some(ApiError("AlreadyExistsException")) else None)
            && (err.Some? ==> w'.databases == w.databases && w'.tags == w.tags)
  {
    assert AWS_PREFIX == "aws:";
    assert TouchesAWS(TagValues(d.tags).Keys) <==> exists k | k in TagValues(d.tags) :: "aws:" <= k;
  }

  // ---------- field by field ----------

  lemma PermissionsReturn(ps: seq<Option<PrincipalPermissions>>)
    requires forall i :: 0 <= i < |ps| ==> PanicFreeEntry(ps[i])
    ensures FromSdkList(ToSdkList(ps)) == ps
  {
    forall i | 0 <= i < |ps| ensures FromSdkPermissions(ToSdkPermissions(ps[i])) == ps[i] {
      if ps[i].value.permissions.Some? {
        assert Pointers(Strings(ps[i].value.permissions.value)) == ps[i].value.permissions.value;
      }
    }
  }

  lemma PermissionsComeBack(env: Env, d: DatabaseSpec)
    requires PanicFree(d)
    ensures var sent := InputOf(d).createTableDefaultPermissions;
            var back := FromSdkList(sent.GetOr(env.defaultPermissions));
            NormalPermissions(back) == NormalPermissions(d.tableDefaultPermissions.GetOr([]))
            <==> (d.tableDefaultPermissions.None? ==> env.defaultPermissions == [])
  {
    if d.tableDefaultPermissions.Some? {
      PermissionsReturn(d.tableDefaultPermissions.value);
    } else {
      assert |NormalPermissions(FromSdkList(env.defaultPermissions))| == |env.defaultPermissions|;
    }
  }

  lemma ParametersComeBack(p: Option<StringMap>)
    ensures (p.Some? ==> PointerMap(PlainMap(p.value)) == p.value) <==> (p.Some? ==> NoNilValues(p.value))
  {
    if p.Some? {
      PlainThenPointer(p.value);
    }
  }

  /** The heart of the round trip: stored and read back, a spec shows no drift outside its tags
      exactly when it is admissible. */
  lemma StoredComesBack(env: Env, d: DatabaseSpec)
    requires PanicFree(d) && d.name.Some?
    ensures var k := KeyOfSpec(env, d);
            SameButTags(d, SpecOf(d, Response(k, Stored(env, k, InputOf(d))))) <==> Admissible(env, d)
  {
    var k := KeyOfSpec(env, d);
    var back := SpecOf(d, Response(k, Stored(env, k, InputOf(d))));
    PermissionsComeBack(env, d);
    ParametersComeBack(d.parameters);
    var x, y := Normal(d), Normal(back);
    assert x.description == y.description && x.locationURI == y.locationURI;
    assert x.federatedDatabase == y.federatedDatabase && x.targetDatabase == y.targetDatabase;
    assert x.catalogID == y.catalogID <==> d.catalogID.Some?;
    assert x.name == y.name <==> Fold(d.name.value) == d.name.value;
  }

  /** The ARN the controller computes after a create (and uses until the next read) is the database's
      own exactly when the name is in the form the service stores it under. */
  lemma CreatedARNIsOwn(env: Env, id: Identity, d: DatabaseSpec, md: Option<ResourceMetadata>)
    requires Located(env, id, md) && d.name.Some?
    ensures KoARN(Defaulted(id, md), d.name.value) == ArnOfSpec(env, d) <==> Fold(d.name.value) == d.name.value
  {
    NamesComeLast(env.home.partition, env.home.region, env.home.account, d.name.value);
    NamesComeLast(env.home.partition, env.home.region, env.home.account, Fold(d.name.value));
    var prefix := DatabaseARN(env.home.partition, env.home.region, env.home.account, "");
    if KoARN(Defaulted(id, md), d.name.value) == ArnOfSpec(env, d) {
      SamePrefix(prefix, d.name.value, Fold(d.name.value));
    }
  }

  // ---------- reading ----------

  /** What a read makes of the response: every field of the spec as answered, nil where it is absent, and
      the tags left to the second call. */
  lemma ReadTakesTheResponse(s: DatabaseSpec, db: SdkDatabase)
    ensures var back, sent := SpecOf(s, db), db.input.createTableDefaultPermissions;
            && back.catalogID == db.catalogId && back.name == db.input.name
            && back.description == db.input.description && back.locationURI == db.input.locationUri
            && back.federatedDatabase == db.input.federatedDatabase && back.targetDatabase == db.input.targetDatabase
            && back.tags == s.tags
            && (back.parameters.Some? <==> db.input.parameters.Some?)
            && (back.parameters.Some? ==>
                  && back.parameters.value.Keys == db.input.parameters.value.Keys
                  && forall k | k in back.parameters.value ::
                       back.parameters.value[k] == Some(db.input.parameters.value[k]))
            && (back.tableDefaultPermissions.Some? <==> sent.Some?)
            && (sent.Some? ==>
                  && |back.tableDefaultPermissions.value| == |sent.value|
                  && forall i | 0 <= i < |sent.value| ::
                       HoldsEntry(sent.value[i], back.tableDefaultPermissions.value[i]))
  {
  }

  /** Which error a read ends with. A nameless spec is not found without a call. An error of the first call
      becomes NotFound exactly if its code says that the entity does not exist, and is otherwise handed on,
      as is every error of the second call. */
  lemma ReadErrors(env: Env, id: Identity, w: World, d: DatabaseSpec, md: Option<ResourceMetadata>)
    ensures d.name.None? ==> Find(env, id, w, d, md) == (w, Err(NotFound))
    ensures d.name.Some? && env.faults(w.clock).Some? ==>
              var e := env.faults(w.clock).value;
              Find(env, id, w, d, md).1 ==
              Err(if e.ApiCode() == Some("EntityNotFoundException") then NotFound else e)
    ensures d.name.Some? && env.faults(w.clock).None? && !Exists(env, w, d) ==>
              Find(env, id, w, d, md).1 == Err(NotFound)
    ensures Exists(env, w, d) && env.faults(w.clock).None? && env.faults(w.clock + 1).Some? ==>
              Find(env, id, w, d, md).1 == Err(env.faults(w.clock + 1).value)
  {
  }

  /** A throttled read is no missing database. */
  lemma ThrottledIsNotMissing(env: Env, id: Identity, w: World, d: DatabaseSpec, md: Option<ResourceMetadata>)
    requires d.name.Some? && env.faults(w.clock) == Some(ApiError("ThrottlingException"))
    ensures Find(env, id, w, d, md).1 == Err(ApiError("ThrottlingException"))
  {
    ReadErrors(env, id, w, d, md);
    ChainsUnwrap([], ApiError("ThrottlingException"));
  }

  /** Reading changes neither the store nor the log, and takes at most two ticks. */
  lemma FindIsReadOnly(env: Env, id: Identity, w: World, d: DatabaseSpec, md: Option<ResourceMetadata>)
    ensures var w1 := Find(env, id, w, d, md).0;
            w1 == w.(clock := w1.clock) && w.clock <= w1.clock <= w.clock + 2
  {
  }

  /** A read that succeeds returns the stored database, and a read fails only for a fault or
      because the database is not there. */
  lemma FindReadsBack(env: Env, id: Identity, w: World, d: DatabaseSpec, md: Option<ResourceMetadata>)
    requires Faithful(env, w) && Located(env, id, md)
    ensures var (w1, answer) := Find(env, id, w, d, md);
            && (answer.Ok? ==>
                  && Exists(env, w, d)
                  && answer.value.spec == ReadBack(env, w, d)
                  && answer.value.metadata == Defaulted(id, md).(arn := Some(ArnOfSpec(env, d))))
            && (Calm(env, w.clock, w1.clock) ==> if Exists(env, w, d) then answer.Ok? else answer == Err(NotFound))
  {
  }

  // ---------- the round trip ----------

  lemma CreatedReadsBack(env: Env, w: World, d: DatabaseSpec)
    requires Faithful(env, w) && PanicFree(d) && CreateDb(env, w, d).1.None?
    ensures var w1 := CreateDb(env, w, d).0;
            && Exists(env, w1, d) && Faithful(env, w1)
            && (DeltaPaths(d, ReadBack(env, w1, d)) == [] <==> Admissible(env, d))
            && TagsAt(w1, ArnOfSpec(env, d)) == TagValues(d.tags)
  {
    var w1 := CreateDb(env, w, d).0;
    var back := ReadBack(env, w1, d);
    StoredComesBack(env, d);
    var k := KeyOfSpec(env, d);
    assert back == SpecOf(d, Response(k, Stored(env, k, InputOf(d)))).(tags := back.tags);
    PointerThenPlain(TagValues(d.tags));
    assert TagValues(back.tags) == TagValues(d.tags);
    DriftByParts(d, back);
  }

  /** For every spec the payload builder accepts: once a create call succeeded, reading the database
      back shows no drift at all exactly when the spec is admissible. */
  lemma CreateThenRead(env: Env, id: Identity, w: World, d: DatabaseSpec, md: Option<ResourceMetadata>)
    requires Faithful(env, w) && PanicFree(d) && Located(env, id, md)
    requires CreateDb(env, w, d).1.None?
    ensures var w1 := CreateDb(env, w, d).0;
            var (w2, answer) := Find(env, id, w1, d, md);
            && (answer.Ok? ==> (DeltaPaths(d, answer.value.spec) == [] <==> Admissible(env, d)))
            && (Calm(env, w1.clock, w2.clock) ==> answer.Ok?)
  {
    CreatedReadsBack(env, w, d);
    FindReadsBack(env, id, CreateDb(env, w, d).0, d, md);
  }

  lemma DriftByParts(a: DatabaseSpec, b: DatabaseSpec)
    ensures DeltaPaths(a, b) == [] <==> SameButTags(a, b) && TagValues(a.tags) == TagValues(b.tags)
  {
    DeltaIsNormalForm(a, b);
    PointerThenPlain(TagValues(a.tags));
    PointerThenPlain(TagValues(b.tags));
  }

  /** Late initialisation supplies what admissibility asks for beyond the user's own values. */
  lemma LateInitMakesAdmissible(env: Env, id: Identity, w: World, d: DatabaseSpec, md: Option<ResourceMetadata>)
    requires Faithful(env, w) && Located(env, id, md) && Find(env, id, w, d, md).1.Ok?
    ensures var once := LateInitialized(d, Find(env, id, w, d, md).1.value.spec);
            && (PanicFree(d) ==> PanicFree(once))
            && (Admissible(env, once) <==>
                  Fold(d.name.value) == d.name.value && (d.parameters.Some? ==> NoNilValues(d.parameters.value)))
  {
    FindReadsBack(env, id, w, d, md);
  }
}
