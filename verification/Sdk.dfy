/** pkg/resource/database/sdk.go and hooks.go: reading, creating and updating a database
    through the API. Each method is proved to have the effect on the world, the outcome and
    the resource that a function of the spec gives. */
module Sdk {
  import opened Types
  import opened Tags
  import opened Identifiers
  import opened Glue
  import opened TagSync
  import opened Deltas
  import opened Resource

  // ---------- payloads ----------

  /** The pointers the payload builder follows without a check: list entries and permissions. */
  predicate PanicFree(s: DatabaseSpec) {
    s.tableDefaultPermissions.Some? ==>
      forall i :: 0 <= i < |s.tableDefaultPermissions.value| ==> PanicFreeEntry(s.tableDefaultPermissions.value[i])
  }

  predicate PanicFreeEntry(p: Option<PrincipalPermissions>) {
    && p.Some?
    && (p.value.permissions.Some? ==>
          forall j :: 0 <= j < |p.value.permissions.value| ==> p.value.permissions.value[j].Some?)
  }

  function Strings(ptrs: seq<Option<string>>): seq<string> {
    seq(|ptrs|, j requires 0 <= j < |ptrs| => ptrs[j].GetOr(""))
  }

  function Pointers(strs: seq<string>): seq<Option<string>> {
    seq(|strs|, j requires 0 <= j < |strs| => Some(strs[j]))
  }

  function ToSdkPermissions(p: Option<PrincipalPermissions>): SdkPrincipalPermissions {
    match p
    case None => SdkPrincipalPermissions(None, None)
    case Some(x) =>
      SdkPrincipalPermissions(
        if x.permissions.None? then None else Some(Strings(x.permissions.value)),
        x.principal)
  }

  function FromSdkPermissions(p: SdkPrincipalPermissions): Option<PrincipalPermissions> {
    Some(PrincipalPermissions(
           if p.permissions.None? then None else Some(Pointers(p.permissions.value)),
           p.principal))
  }

  function ToSdkList(ps: seq<Option<PrincipalPermissions>>): seq<SdkPrincipalPermissions> {
    seq(|ps|, i requires 0 <= i < |ps| => ToSdkPermissions(ps[i]))
  }

  function FromSdkList(ps: seq<SdkPrincipalPermissions>): seq<Option<PrincipalPermissions>> {
    seq(|ps|, i requires 0 <= i < |ps| => FromSdkPermissions(ps[i]))
  }

  /** The request body for a spec. */
  function InputOf(s: DatabaseSpec): DatabaseInput {
    DatabaseInput(
      if s.tableDefaultPermissions.None? then None else Some(ToSdkList(s.tableDefaultPermissions.value)),
      s.description,
      s.federatedDatabase,
      s.locationURI,
      s.name,
      if s.parameters.None? then None else Some(PlainMap(s.parameters.value)),
      s.targetDatabase)
  }

  /** The spec of a copy of `s` overwritten with a response, tags aside. */
  function SpecOf(s: DatabaseSpec, db: SdkDatabase): DatabaseSpec {
    s.(catalogID := db.catalogId,
       tableDefaultPermissions :=
         if db.input.createTableDefaultPermissions.None? then None
         else Some(FromSdkList(db.input.createTableDefaultPermissions.value)),
       description := db.input.description,
       federatedDatabase := db.input.federatedDatabase,
       locationURI := db.input.locationUri,
       name := db.input.name,
       parameters := if db.input.parameters.None? then None else Some(PointerMap(db.input.parameters.value)),
       targetDatabase := db.input.targetDatabase)
  }

  /** The permission loops shared by the create and the update payload. */
  method BuildPermissions(ps: seq<Option<PrincipalPermissions>>) returns (f0: seq<SdkPrincipalPermissions>)
    requires forall i :: 0 <= i < |ps| ==> PanicFreeEntry(ps[i])
    ensures f0 == ToSdkList(ps)
  {
    f0 := [];
    for i := 0 to |ps|
      invariant f0 == ToSdkList(ps)[..i]
    {
      var f0iter := ps[i].value;
      var f0elem := SdkPrincipalPermissions(None, None);
      if f0iter.permissions.Some? {
        var ptrs := f0iter.permissions.value;
        var f0elemf0: seq<string> := [];
        for j := 0 to |ptrs|
          invariant f0elemf0 == Strings(ptrs)[..j]
        {
          f0elemf0 := f0elemf0 + [ptrs[j].value];
        }
        assert f0elemf0 == Strings(ptrs);
        f0elem := f0elem.(permissions := Some(f0elemf0));
      }
      if f0iter.principal.Some? {
        var f0elemf1 := DataLakePrincipal(None);
        if f0iter.principal.value.identifier.Some? {
          f0elemf1 := f0elemf1.(identifier := f0iter.principal.value.identifier);
        }
        f0elem := f0elem.(principal := Some(f0elemf1));
      }
      assert f0elem == ToSdkPermissions(ps[i]);
      f0 := f0 + [f0elem];
    }
  }

  method ReadPermissions(ps: seq<SdkPrincipalPermissions>) returns (f1: seq<Option<PrincipalPermissions>>)
    ensures f1 == FromSdkList(ps)
  {
    f1 := [];
    for i := 0 to |ps|
      invariant f1 == FromSdkList(ps)[..i]
    {
      var f1iter := ps[i];
      var f1elem := PrincipalPermissions(None, None);
      if f1iter.permissions.Some? {
        var f1elemf0: seq<Option<string>> := [];
        for j := 0 to |f1iter.permissions.value|
          invariant f1elemf0 == Pointers(f1iter.permissions.value)[..j]
        {
          f1elemf0 := f1elemf0 + [Some(f1iter.permissions.value[j])];
        }
        assert f1elemf0 == Pointers(f1iter.permissions.value);
        f1elem := f1elem.(permissions := Some(f1elemf0));
      }
      if f1iter.principal.Some? {
        var f1elemf1 := DataLakePrincipal(None);
        if f1iter.principal.value.identifier.Some? {
          f1elemf1 := f1elemf1.(identifier := f1iter.principal.value.identifier);
        }
        f1elem := f1elem.(principal := Some(f1elemf1));
      }
      assert Some(f1elem) == FromSdkPermissions(ps[i]);
      f1 := f1 + [Some(f1elem)];
    }
  }

  /** The field-by-field copies of the two optional structs, the same in both directions. */
  method CopyFederated(from: FederatedDatabase) returns (to: FederatedDatabase)
    ensures to == from
  {
    to := FederatedDatabase(None, None);
    if from.connectionName.Some? {
      to := to.(connectionName := from.connectionName);
    }
    if from.identifier.Some? {
      to := to.(identifier := from.identifier);
    }
  }

  method CopyTarget(from: DatabaseIdentifier) returns (to: DatabaseIdentifier)
    ensures to == from
  {
    to := DatabaseIdentifier(None, None, None);
    if from.catalogID.Some? {
      to := to.(catalogID := from.catalogID);
    }
    if from.databaseName.Some? {
      to := to.(databaseName := from.databaseName);
    }
    if from.region.Some? {
      to := to.(region := from.region);
    }
  }

  /** The body shared by newCreateRequestPayload and newUpdateRequestPayload. */
  method BuildInput(s: DatabaseSpec) returns (fw: DatabaseInput)
    requires PanicFree(s)
    ensures fw == InputOf(s)
  {
    fw := DatabaseInput(None, None, None, None, None, None, None);
    if s.tableDefaultPermissions.Some? {
      var f0 := BuildPermissions(s.tableDefaultPermissions.value);
      fw := fw.(createTableDefaultPermissions := Some(f0));
    }
    if s.description.Some? {
      fw := fw.(description := s.description);
    }
    if s.federatedDatabase.Some? {
      var f2 := CopyFederated(s.federatedDatabase.value);
      fw := fw.(federatedDatabase := Some(f2));
    }
    if s.locationURI.Some? {
      fw := fw.(locationUri := s.locationURI);
    }
    if s.name.Some? {
      fw := fw.(name := s.name);
    }
    if s.parameters.Some? {
      fw := fw.(parameters := Some(PlainMap(s.parameters.value)));
    }
    if s.targetDatabase.Some? {
      var f6 := CopyTarget(s.targetDatabase.value);
      fw := fw.(targetDatabase := Some(f6));
    }
  }

  /** The overwriting of ko.Spec with a response, tags aside (the first part of sdkFind's merge). */
  method ReadSpec(s: DatabaseSpec, db: SdkDatabase) returns (spec: DatabaseSpec)
    ensures spec == SpecOf(s, db)
  {
    spec := s;
    spec := spec.(catalogID := db.catalogId);
    if db.input.createTableDefaultPermissions.Some? {
      var f1 := ReadPermissions(db.input.createTableDefaultPermissions.value);
      spec := spec.(tableDefaultPermissions := Some(f1));
    } else {
      spec := spec.(tableDefaultPermissions := None);
    }
    spec := spec.(description := db.input.description);
    if db.input.federatedDatabase.Some? {
      var f4 := CopyFederated(db.input.federatedDatabase.value);
      spec := spec.(federatedDatabase := Some(f4));
    } else {
      spec := spec.(federatedDatabase := None);
    }
    spec := spec.(locationURI := db.input.locationUri);
    spec := spec.(name := db.input.name);
    if db.input.parameters.Some? {
      spec := spec.(parameters := Some(PointerMap(db.input.parameters.value)));
    } else {
      spec := spec.(parameters := None);
    }
    if db.input.targetDatabase.Some? {
      var f8 := CopyTarget(db.input.targetDatabase.value);
      spec := spec.(targetDatabase := Some(f8));
    } else {
      spec := spec.(targetDatabase := None);
    }
  }

  // ---------- sdkFind ----------

  /** A resource as read: its spec and its metadata, which is complete. */
  datatype Observation = Observation(spec: DatabaseSpec, metadata: ResourceMetadata)

  predicate Complete(md: ResourceMetadata) {
    md.arn.Some? && md.partition.Some? && md.region.Some? && md.ownerAccountID.Some?
  }

  function KoARN(md: ResourceMetadata, name: string): string
    requires md.partition.Some? && md.region.Some? && md.ownerAccountID.Some?
  {
    DatabaseARN(md.partition.value, md.region.value, md.ownerAccountID.value, name)
  }

  /** What reading a resource with the given spec and metadata does to the world and answers. */
  function Find(env: Env, id: Identity, w: World, spec: DatabaseSpec, md: Option<ResourceMetadata>):
    (r: (World, Result<Observation>))
    ensures r.1.Ok? ==> Complete(r.1.value.metadata)
  {
    if spec.name.None? then (w, Err(NotFound))
    else
      var (w1, response) := ServeGetDatabase(env, w, spec.catalogID, spec.name);
      if response.Err? then
        (w1, Err(if response.error.ApiCode() == Some("EntityNotFoundException") then NotFound else response.error))
      else
        var db := response.value;
        var m := Defaulted(id, md);
        var arn := KoARN(m, db.input.name.GetOr(""));
        var (w2, tags) := ServeGetTags(env, w1, arn);
        if tags.Err? then (w2, Err(tags.error))
        else (w2, Ok(Observation(SpecOf(spec, db).(tags := Some(PointerMap(tags.value))), m.(arn := Some(arn)))))
  }

  method SdkFind(rm: ResourceManager, r: Database) returns (latest: Database?, err: Option<Error>)
    requires Faithful(rm.sdkapi.env, rm.sdkapi.w)
    modifies rm.sdkapi
    ensures r.Conds() == old(r.Conds())
    ensures var answer := Find(rm.sdkapi.env, rm.Id(), old(rm.sdkapi.w), r.spec, r.metadata);
            && rm.sdkapi.w == answer.0
            && (answer.1.Err? ==> latest == null && err == Some(answer.1.error))
            && (answer.1.Ok? ==>
                  && err.None? && latest != null && fresh(latest) && fresh(latest.Entries())
                  && latest.spec == answer.1.value.spec && latest.metadata == Some(answer.1.value.metadata)
                  && latest.Conds() == old(r.Conds()))
  {
    if r.spec.name.None? {
      return null, Some(NotFound);
    }
    var resp := rm.sdkapi.GetDatabase(r.spec.catalogID, r.spec.name);
    CondsKept(r);
    if resp.Err? {
      if resp.error.ApiCode() == Some("EntityNotFoundException") {
        return null, Some(NotFound);
      }
      return null, Some(resp.error);
    }
    var ko := MergeResponse(rm, r, resp.value);
    label merged:
    var tags := GetResourceTags(rm.sdkapi, ko.metadata.value.arn.value);
    CondsKept(r);
    CondsKept@merged(ko);
    if tags.Err? {
      return null, Some(tags.error);
    }
    ko.spec := ko.spec.(tags := Some(tags.value));
    CondsKept(r);
    CondsKept@merged(ko);
    return ko, None;
  }

  /** The copy of r that `sdkFind` fills in, tags aside. */
  method MergeResponse(rm: ResourceManager, r: Database, db: SdkDatabase) returns (ko: Database)
    requires db.input.name.Some?
    ensures fresh(ko) && fresh(ko.Entries())
    ensures ko.spec == SpecOf(r.spec, db)
    ensures var m := Defaulted(rm.Id(), r.metadata);
            ko.metadata == Some(m.(arn := Some(KoARN(m, db.input.name.value))))
    ensures ko.Conds() == old(r.Conds()) && r.Conds() == old(r.Conds())
  {
    ko := r.DeepCopy();
    label copied:
    var spec := ReadSpec(ko.spec, db);
    ko.spec := spec;
    SetStatusDefaults(rm, ko);
    var md := ko.metadata.value;
    var arn := KoARN(md, ko.spec.name.value);
    ko.metadata := Some(md.(arn := Some(arn)));
    assert ko.Entries() == old@copied(ko.Entries());
    CondsKept(r);
  }

  // ---------- sdkCreate ----------

  function CreateDb(env: Env, w: World, spec: DatabaseSpec): (World, Option<Error>) {
    ServeCreateDatabase(env, w, spec.catalogID, InputOf(spec), TagValues(spec.tags))
  }

  method SdkCreate(rm: ResourceManager, desired: Database) returns (created: Database?, err: Option<Error>)
    requires PanicFree(desired.spec)
    modifies rm.sdkapi
    ensures (rm.sdkapi.w, err) == CreateDb(rm.sdkapi.env, old(rm.sdkapi.w), desired.spec)
    ensures err.Some? <==> created == null
    ensures created != null ==>
              && desired.spec.name.Some? && fresh(created) && fresh(created.Entries())
              && created.spec == desired.spec && created.Conds() == old(desired.Conds())
              && var m := Defaulted(rm.Id(), desired.metadata);
                 created.metadata == Some(m.(arn := Some(KoARN(m, desired.spec.name.value))))
  {
    var input := BuildInput(desired.spec);
    var tags: Plain := map[];
    if desired.spec.tags.Some? {
      tags := PlainMap(desired.spec.tags.value);
    }
    err := rm.sdkapi.CreateDatabase(desired.spec.catalogID, input, tags);
    if err.Some? {
      return null, err;
    }
    var ko := desired.DeepCopy();
    SetStatusDefaults(rm, ko);
    var md := ko.metadata.value;
    ko.metadata := Some(md.(arn := Some(KoARN(md, ko.spec.name.value))));
    return ko, None;
  }

  // ---------- sdkUpdate ----------

  /** The two stages of an update: tags if the delta mentions them, then, unless that failed, the
      database itself if it mentions anything else. */
  function UpdateDb(
    env: Env, w: World, desired: DatabaseSpec, latest: DatabaseSpec, arn: string, differences: seq<Path>):
    (World, Option<Error>)
  {
    var tagged :=
      if DifferentAt(differences, TAGS) then Synced(env, w, arn, TagValues(desired.tags), TagValues(latest.tags))
      else (w, None);
    if tagged.1.Some? || !DifferentExcept(differences, TAGS) then tagged
    else ServeUpdateDatabase(env, tagged.0, desired.catalogID, desired.name, InputOf(desired))
  }

  /** An error of the tag sync is the update's and ends it; a fault of the update call is the update's too. */
  lemma UpdateErrors(
    env: Env, w: World, desired: DatabaseSpec, latest: DatabaseSpec, arn: string, differences: seq<Path>)
    ensures var sync := Synced(env, w, arn, TagValues(desired.tags), TagValues(latest.tags));
            var done := UpdateDb(env, w, desired, latest, arn, differences);
            var tagged := exists i | 0 <= i < |differences| :: TAGS <= differences[i];
            var more := exists i | 0 <= i < |differences| :: !(TAGS <= differences[i]);
            && (tagged && sync.1.Some? ==> done == sync)
            && (tagged && sync.1.None? && !more ==> done == sync)
            && (tagged && sync.1.None? && more && env.faults(sync.0.clock).Some? ==>
                  done.1 == env.faults(sync.0.clock) && done.0.databases == sync.0.databases)
            && (!tagged && more && env.faults(w.clock).Some? ==>
                  done.1 == env.faults(w.clock) && done.0.databases == w.databases)
            && (!tagged && !more ==> done == (w, None))
  {
  }

  /** The ARN `syncTags` dereferences; "" stands for the nil it would trip over. */
  function ARNOf(md: Option<ResourceMetadata>): string {
    if md.Some? then md.value.arn.GetOr("") else ""
  }

  /** Only the tag stage looks at the metadata of the latest resource. */
  method SdkUpdate(rm: ResourceManager, desired: Database, latest: Database, delta: Delta)
    returns (updated: Database?, err: Option<Error>)
    requires PanicFree(desired.spec)
    requires DifferentAt(delta.differences, TAGS) ==> latest.metadata.Some? && latest.metadata.value.arn.Some?
    modifies rm.sdkapi
    ensures (rm.sdkapi.w, err) == UpdateDb(
              rm.sdkapi.env, old(rm.sdkapi.w), desired.spec, latest.spec, ARNOf(latest.metadata), delta.differences)
    ensures err.Some? <==> updated == null
    ensures updated != null ==>
              && updated.spec == desired.spec && updated.Conds() == old(desired.Conds())
              && (if DifferentExcept(delta.differences, TAGS) then
                    && fresh(updated) && fresh(updated.Entries())
                    && updated.metadata == Some(Defaulted(rm.Id(), desired.metadata))
                  else updated == desired)
  {
    if DifferentAt(delta.differences, TAGS) {
      err := SyncResourceTags(rm.sdkapi, latest.metadata.value.arn.value, desired.spec.tags, latest.spec.tags);
      if err.Some? {
        return null, err;
      }
    }
    if !DifferentExcept(delta.differences, TAGS) {
      return desired, None;
    }
    updated, err := PutDatabase(rm, desired);
  }

  /** The second stage of `sdkUpdate`. */
  method PutDatabase(rm: ResourceManager, desired: Database) returns (updated: Database?, err: Option<Error>)
    requires PanicFree(desired.spec)
    modifies rm.sdkapi
    ensures (rm.sdkapi.w, err) ==
            ServeUpdateDatabase(
              rm.sdkapi.env, old(rm.sdkapi.w), desired.spec.catalogID, desired.spec.name, InputOf(desired.spec))
    ensures err.Some? <==> updated == null
    ensures updated != null ==>
              && fresh(updated) && fresh(updated.Entries())
              && updated.spec == desired.spec && updated.Conds() == old(desired.Conds())
              && updated.metadata == Some(Defaulted(rm.Id(), desired.metadata))
  {
    var input := BuildInput(desired.spec);
    err := rm.sdkapi.UpdateDatabase(desired.spec.catalogID, desired.spec.name, input);
    if err.Some? {
      return null, err;
    }
    var ko := desired.DeepCopy();
    SetStatusDefaults(rm, ko);
    return ko, None;
  }
}
