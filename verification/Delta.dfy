/** pkg/resource/database/delta.go: the drift between a desired and an observed database.
    `newResourceDelta` is proved to report exactly the paths at which the two specs differ in
    a normal form, which makes "no drift" an equivalence. */
module Deltas {
  import opened Types
  import opened Tags
  import opened Resource

  /** The segments of a path: the names of the spec's fields. */
  datatype Segment =
    | Whole
    | Spec
    | CatalogIDField
    | ConnectionNameField
    | DatabaseNameField
    | DescriptionField
    | FederatedField
    | IdentifierField
    | LocationURIField
    | NameField
    | ParametersField
    | PermissionsField
    | RegionField
    | TagsField
    | TargetField

  type Path = seq<Segment>

  const CATALOG_ID: Path := [Spec, CatalogIDField]
  const DESCRIPTION: Path := [Spec, DescriptionField]
  const FEDERATED: Path := [Spec, FederatedField]
  const FEDERATED_CONNECTION: Path := [Spec, FederatedField, ConnectionNameField]
  const FEDERATED_IDENTIFIER: Path := [Spec, FederatedField, IdentifierField]
  const LOCATION: Path := [Spec, LocationURIField]
  const NAME: Path := [Spec, NameField]
  const PARAMETERS: Path := [Spec, ParametersField]
  const PERMISSIONS: Path := [Spec, PermissionsField]
  const TAGS: Path := [Spec, TagsField]
  const TARGET: Path := [Spec, TargetField]
  const TARGET_CATALOG: Path := [Spec, TargetField, CatalogIDField]
  const TARGET_NAME: Path := [Spec, TargetField, DatabaseNameField]
  const TARGET_REGION: Path := [Spec, TargetField, RegionField]

  // ---------- the compare package ----------

  /** `HasNilDifference` on pointers. */
  predicate HasNilDifference<T>(a: Option<T>, b: Option<T>) {
    a.None? != b.None?
  }

  /** `IsNilEqualsZero`: one side is nil and the other points to "". */
  predicate IsNilEqualsZero(a: Option<string>, b: Option<string>) {
    || (a.None? && b == Some(""))
    || (b.None? && a == Some(""))
  }

  predicate MapStringStringPEqual(a: StringMap, b: StringMap) {
    |a| == |b| && forall k | k in a :: k in b && a[k] == b[k]
  }

  predicate MapStringStringEqual(a: Plain, b: Plain) {
    |a| == |b| && forall k | k in a :: k in b && a[k] == b[k]
  }

  /** `equality.Semantic.Equalities.DeepEqual` on permission lists: pointers are followed, and a
      nil slice equals an empty one. */
  predicate SemanticEqual(a: seq<Option<PrincipalPermissions>>, b: seq<Option<PrincipalPermissions>>) {
    if |a| != |b| then false
    else if |a| == 0 then true
    else SemanticEqualEntry(a[0], b[0]) && SemanticEqual(a[1..], b[1..])
  }

  predicate SemanticEqualEntry(a: Option<PrincipalPermissions>, b: Option<PrincipalPermissions>) {
    match (a, b)
    case (None, None) => true
    case (Some(x), Some(y)) =>
      && x.permissions.GetOr([]) == y.permissions.GetOr([])
      && x.principal == y.principal
    case _ => false
  }

  /** `ackcompare.Delta`, filled by successive `Add` calls. */
  class Delta {
    var differences: seq<Path>

    constructor ()
      ensures differences == []
    {
      differences := [];
    }

    method Add(path: Path)
      modifies this
      ensures differences == old(differences) + [path]
    {
      differences := differences + [path];
    }
  }

  /** `Delta.DifferentAt`: some reported path lies at or below the given one. */
  predicate DifferentAt(differences: seq<Path>, path: Path) {
    exists i :: 0 <= i < |differences| && path <= differences[i]
  }

  /** `Delta.DifferentExcept`: some reported path does not. */
  predicate DifferentExcept(differences: seq<Path>, path: Path) {
    exists i :: 0 <= i < |differences| && !(path <= differences[i])
  }

  // ---------- the drift relation ----------

  function Normal(s: DatabaseSpec): DatabaseSpec {
    s.(description := Some(s.description.GetOr("")),
       locationURI := Some(s.locationURI.GetOr("")),
       parameters := Some(s.parameters.GetOr(map[])),
       tableDefaultPermissions := Some(NormalPermissions(s.tableDefaultPermissions.GetOr([]))),
       tags := Some(PointerMap(TagValues(s.tags))))
  }

  function NormalEntry(p: Option<PrincipalPermissions>): Option<PrincipalPermissions> {
    match p
    case None => None
    case Some(x) => Some(x.(permissions := Some(x.permissions.GetOr([]))))
  }

  function NormalPermissions(ps: seq<Option<PrincipalPermissions>>): (r: seq<Option<PrincipalPermissions>>)
    ensures |r| == |ps|
    ensures forall i :: 0 <= i < |ps| ==> r[i] == NormalEntry(ps[i])
  {
    if |ps| == 0 then [] else [NormalEntry(ps[0])] + NormalPermissions(ps[1..])
  }

  function At(differs: bool, path: Path): seq<Path> {
    if differs then [path] else []
  }

  function FederatedPaths(a: Option<FederatedDatabase>, b: Option<FederatedDatabase>): seq<Path> {
    match (a, b)
    case (Some(x), Some(y)) =>
      At(x.connectionName != y.connectionName, FEDERATED_CONNECTION) +
      At(x.identifier != y.identifier, FEDERATED_IDENTIFIER)
    case _ => At(a != b, FEDERATED)
  }

  function TargetPaths(a: Option<DatabaseIdentifier>, b: Option<DatabaseIdentifier>): seq<Path> {
    match (a, b)
    case (Some(x), Some(y)) =>
      At(x.catalogID != y.catalogID, TARGET_CATALOG) +
      At(x.databaseName != y.databaseName, TARGET_NAME) +
      At(x.region != y.region, TARGET_REGION)
    case _ => At(a != b, TARGET)
  }

  function ScalarPaths(found: seq<Path>, x: DatabaseSpec, y: DatabaseSpec): seq<Path> {
    found +
    At(x.catalogID != y.catalogID, CATALOG_ID) +
    At(x.description != y.description, DESCRIPTION) +
    FederatedPaths(x.federatedDatabase, y.federatedDatabase) +
    At(x.locationURI != y.locationURI, LOCATION) +
    At(x.name != y.name, NAME)
  }

  function CollectionPaths(found: seq<Path>, x: DatabaseSpec, y: DatabaseSpec): seq<Path> {
    found +
    At(x.parameters != y.parameters, PARAMETERS) +
    At(x.tableDefaultPermissions != y.tableDefaultPermissions, PERMISSIONS) +
    At(x.tags != y.tags, TAGS) +
    TargetPaths(x.targetDatabase, y.targetDatabase)
  }

  /** The paths at which two specs differ in normal form, in the order they are compared. */
  function DeltaPaths(a: DatabaseSpec, b: DatabaseSpec): seq<Path> {
    CollectionPaths(ScalarPaths([], Normal(a), Normal(b)), Normal(a), Normal(b))
  }

  // ---------- newResourceDelta ----------

  method CompareString(delta: Delta, a: Option<string>, b: Option<string>, path: Path)
    modifies delta
    ensures delta.differences == old(delta.differences) + At(a != b, path)
  {
    if HasNilDifference(a, b) {
      delta.Add(path);
    } else if a.Some? && b.Some? {
      if a.value != b.value {
        delta.Add(path);
      }
    }
  }

  method CompareNilEqualsZero(delta: Delta, a: Option<string>, b: Option<string>, path: Path)
    modifies delta
    ensures delta.differences == old(delta.differences) + At(Some(a.GetOr("")) != Some(b.GetOr("")), path)
  {
    if HasNilDifference(a, b) {
      if !IsNilEqualsZero(a, b) {
        delta.Add(path);
      }
    } else if a.Some? && b.Some? {
      if a.value != b.value {
        delta.Add(path);
      }
    }
  }

  method CompareFederated(delta: Delta, a: Option<FederatedDatabase>, b: Option<FederatedDatabase>)
    modifies delta
    ensures delta.differences == old(delta.differences) + FederatedPaths(a, b)
  {
    if HasNilDifference(a, b) {
      delta.Add(FEDERATED);
    } else if a.Some? && b.Some? {
      CompareString(delta, a.value.connectionName, b.value.connectionName, FEDERATED_CONNECTION);
      CompareString(delta, a.value.identifier, b.value.identifier, FEDERATED_IDENTIFIER);
    }
  }

  method CompareTarget(delta: Delta, a: Option<DatabaseIdentifier>, b: Option<DatabaseIdentifier>)
    modifies delta
    ensures delta.differences == old(delta.differences) + TargetPaths(a, b)
  {
    if HasNilDifference(a, b) {
      delta.Add(TARGET);
    } else if a.Some? && b.Some? {
      CompareString(delta, a.value.catalogID, b.value.catalogID, TARGET_CATALOG);
      CompareString(delta, a.value.databaseName, b.value.databaseName, TARGET_NAME);
      CompareString(delta, a.value.region, b.value.region, TARGET_REGION);
    }
  }

  method CompareParameters(delta: Delta, a: Option<StringMap>, b: Option<StringMap>)
    modifies delta
    ensures delta.differences == old(delta.differences) + At(Some(a.GetOr(map[])) != Some(b.GetOr(map[])), PARAMETERS)
  {
    var x, y := a.GetOr(map[]), b.GetOr(map[]);
    EqualMaps(x, y);
    if |x| != |y| {
      delta.Add(PARAMETERS);
    } else if |x| > 0 {
      if !MapStringStringPEqual(x, y) {
        delta.Add(PARAMETERS);
      }
    }
  }

  method ComparePermissions(
    delta: Delta, a: Option<seq<Option<PrincipalPermissions>>>, b: Option<seq<Option<PrincipalPermissions>>>)
    modifies delta
    ensures var x, y := NormalPermissions(a.GetOr([])), NormalPermissions(b.GetOr([]));
            delta.differences == old(delta.differences) + At(Some(x) != Some(y), PERMISSIONS)
  {
    var x, y := a.GetOr([]), b.GetOr([]);
    SemanticEqualIsNormalEqual(x, y);
    if |x| != |y| {
      delta.Add(PERMISSIONS);
    } else if |x| > 0 {
      if !SemanticEqual(x, y) {
        delta.Add(PERMISSIONS);
      }
    }
  }

  method CompareTags(delta: Delta, a: Option<StringMap>, b: Option<StringMap>)
    modifies delta
    ensures var x, y := PointerMap(TagValues(a)), PointerMap(TagValues(b));
            delta.differences == old(delta.differences) + At(Some(x) != Some(y), TAGS)
  {
    var desiredACKTags, _ := ConvertToOrderedACKTags(a);
    var latestACKTags, _ := ConvertToOrderedACKTags(b);
    EqualMaps(desiredACKTags.m, latestACKTags.m);
    PointerThenPlain(desiredACKTags.m);
    PointerThenPlain(latestACKTags.m);
    if !MapStringStringEqual(desiredACKTags.m, latestACKTags.m) {
      delta.Add(TAGS);
    }
  }

  method CompareScalars(delta: Delta, a: DatabaseSpec, b: DatabaseSpec)
    modifies delta
    ensures delta.differences == ScalarPaths(old(delta.differences), Normal(a), Normal(b))
  {
    CompareString(delta, a.catalogID, b.catalogID, CATALOG_ID);
    CompareNilEqualsZero(delta, a.description, b.description, DESCRIPTION);
    CompareFederated(delta, a.federatedDatabase, b.federatedDatabase);
    CompareNilEqualsZero(delta, a.locationURI, b.locationURI, LOCATION);
    CompareString(delta, a.name, b.name, NAME);
  }

  method CompareCollections(delta: Delta, a: DatabaseSpec, b: DatabaseSpec)
    modifies delta
    ensures delta.differences == CollectionPaths(old(delta.differences), Normal(a), Normal(b))
  {
    CompareParameters(delta, a.parameters, b.parameters);
    ComparePermissions(delta, a.tableDefaultPermissions, b.tableDefaultPermissions);
    CompareTags(delta, a.tags, b.tags);
    CompareTarget(delta, a.targetDatabase, b.targetDatabase);
  }

  /** At most one of the two resources may be nil. */
  method NewResourceDelta(a: Database?, b: Database?) returns (delta: Delta)
    requires a != null || b != null
    ensures fresh(delta)
    ensures delta.differences == if a == null || b == null then [[Whole]] else DeltaPaths(a.spec, b.spec)
  {
    delta := new Delta();
    if (a == null && b != null) || (a != null && b == null) {
      delta.Add([Whole]);
      return;
    }
    CompareScalars(delta, a.spec, b.spec);
    CompareCollections(delta, a.spec, b.spec);
  }

  // ---------- properties ----------

  /** A change to one string field is reported at that field's path and nowhere else; for the
      description and the location, nil and "" are the same. */
  lemma StringFieldDrift(a: DatabaseSpec, v: Option<string>)
    ensures DeltaPaths(a, a.(catalogID := v)) == At(a.catalogID != v, CATALOG_ID)
    ensures DeltaPaths(a, a.(name := v)) == At(a.name != v, NAME)
    ensures DeltaPaths(a, a.(description := v)) == At(a.description.GetOr("") != v.GetOr(""), DESCRIPTION)
    ensures DeltaPaths(a, a.(locationURI := v)) == At(a.locationURI.GetOr("") != v.GetOr(""), LOCATION)
  {
    NothingElse(Normal(a), Normal(a.(catalogID := v)));
    NothingElse(Normal(a), Normal(a.(name := v)));
    NothingElse(Normal(a), Normal(a.(description := v)));
    NothingElse(Normal(a), Normal(a.(locationURI := v)));
  }

  lemma NothingElse(x: DatabaseSpec, y: DatabaseSpec)
    ensures x.federatedDatabase == y.federatedDatabase ==>
              FederatedPaths(x.federatedDatabase, y.federatedDatabase) == []
    ensures x.targetDatabase == y.targetDatabase ==> TargetPaths(x.targetDatabase, y.targetDatabase) == []
  {
  }

  /** The same for the collections: nil and empty are the same, a nil tag value is empty. */
  lemma CollectionFieldDrift(
    a: DatabaseSpec, p: Option<StringMap>, l: Option<seq<Option<PrincipalPermissions>>>, t: Option<StringMap>)
    ensures DeltaPaths(a, a.(parameters := p)) == At(a.parameters.GetOr(map[]) != p.GetOr(map[]), PARAMETERS)
    ensures DeltaPaths(a, a.(tableDefaultPermissions := l)) ==
            At(NormalPermissions(a.tableDefaultPermissions.GetOr([])) != NormalPermissions(l.GetOr([])), PERMISSIONS)
    ensures DeltaPaths(a, a.(tags := t)) == At(TagValues(a.tags) != TagValues(t), TAGS)
  {
    PointerThenPlain(TagValues(a.tags));
    PointerThenPlain(TagValues(t));
    NothingElse(Normal(a), Normal(a.(parameters := p)));
    NothingElse(Normal(a), Normal(a.(tableDefaultPermissions := l)));
    NothingElse(Normal(a), Normal(a.(tags := t)));
  }

  /** A struct that is set on one side only is reported as a whole, and one set on both sides field by field. */
  lemma StructFieldDrift(
    a: DatabaseSpec, f: FederatedDatabase, g: FederatedDatabase, s: DatabaseIdentifier, t: DatabaseIdentifier)
    ensures DeltaPaths(a.(federatedDatabase := Some(f)), a.(federatedDatabase := None)) == [FEDERATED]
    ensures DeltaPaths(a.(federatedDatabase := Some(f)), a.(federatedDatabase := Some(g))) ==
            At(f.connectionName != g.connectionName, FEDERATED_CONNECTION) +
            At(f.identifier != g.identifier, FEDERATED_IDENTIFIER)
    ensures DeltaPaths(a.(targetDatabase := Some(s)), a.(targetDatabase := None)) == [TARGET]
    ensures DeltaPaths(a.(targetDatabase := Some(s)), a.(targetDatabase := Some(t))) ==
            At(s.catalogID != t.catalogID, TARGET_CATALOG) + At(s.databaseName != t.databaseName, TARGET_NAME) +
            At(s.region != t.region, TARGET_REGION)
  {
    NothingElse(Normal(a), Normal(a));
  }

  /** Two permission entries differ: one is nil and the other is not, or their principals differ, or their
      permissions do, nil read as empty. */
  predicate EntriesDiffer(a: Option<PrincipalPermissions>, b: Option<PrincipalPermissions>) {
    || a.Some? != b.Some?
    || (a.Some? && b.Some? &&
        (a.value.principal != b.value.principal || a.value.permissions.GetOr([]) != b.value.permissions.GetOr([])))
  }

  predicate PermissionsDiffer(a: seq<Option<PrincipalPermissions>>, b: seq<Option<PrincipalPermissions>>) {
    |a| != |b| || exists i :: 0 <= i < |a| && EntriesDiffer(a[i], b[i])
  }

  lemma PermissionsDifferExactly(a: seq<Option<PrincipalPermissions>>, b: seq<Option<PrincipalPermissions>>)
    ensures PermissionsDiffer(a, b) <==> NormalPermissions(a) != NormalPermissions(b)
  {
    var x, y := NormalPermissions(a), NormalPermissions(b);
    if |a| == |b| {
      assert forall i | 0 <= i < |a| :: EntriesDiffer(a[i], b[i]) <==> x[i] != y[i];
      assert x == y <==> forall i | 0 <= i < |a| :: x[i] == y[i];
    }
  }

  /** A change to the permissions is reported, and alone, exactly when some entry differs. */
  lemma PermissionsDrift(a: DatabaseSpec, l: Option<seq<Option<PrincipalPermissions>>>)
    ensures DeltaPaths(a, a.(tableDefaultPermissions := l)) ==
            At(PermissionsDiffer(a.tableDefaultPermissions.GetOr([]), l.GetOr([])), PERMISSIONS)
  {
    PermissionsDifferExactly(a.tableDefaultPermissions.GetOr([]), l.GetOr([]));
    CollectionFieldDrift(a, a.parameters, l, a.tags);
  }

  /** Equal outside the tags: nil equals "" for the description and the location only, nil equals empty for
      the collections, and everything else is compared as it is. */
  predicate AgreeOutsideTags(a: DatabaseSpec, b: DatabaseSpec) {
    && a.catalogID == b.catalogID && a.name == b.name
    && a.description.GetOr("") == b.description.GetOr("") && a.locationURI.GetOr("") == b.locationURI.GetOr("")
    && a.federatedDatabase == b.federatedDatabase && a.targetDatabase == b.targetDatabase
    && a.parameters.GetOr(map[]) == b.parameters.GetOr(map[])
    && !PermissionsDiffer(a.tableDefaultPermissions.GetOr([]), b.tableDefaultPermissions.GetOr([]))
  }

  lemma AgreeExactly(a: DatabaseSpec, b: DatabaseSpec)
    ensures SameButTags(a, b) <==> AgreeOutsideTags(a, b)
  {
    PermissionsDifferExactly(a.tableDefaultPermissions.GetOr([]), b.tableDefaultPermissions.GetOr([]));
    var x, y := Normal(a).(tags := None), Normal(b).(tags := None);
    assert x == y <==>
           && x.catalogID == y.catalogID && x.name == y.name && x.description == y.description
           && x.locationURI == y.locationURI && x.federatedDatabase == y.federatedDatabase
           && x.targetDatabase == y.targetDatabase && x.parameters == y.parameters
           && x.tableDefaultPermissions == y.tableDefaultPermissions;
  }

  /** Which path is reported between any two specs, whatever else differs. */
  lemma DriftExactly(a: DatabaseSpec, b: DatabaseSpec, p: Path)
    ensures p in DeltaPaths(a, b) <==>
            || (p == [Spec, CatalogIDField] && a.catalogID != b.catalogID)
            || (p == [Spec, DescriptionField] && a.description.GetOr("") != b.description.GetOr(""))
            || (p == [Spec, LocationURIField] && a.locationURI.GetOr("") != b.locationURI.GetOr(""))
            || (p == [Spec, NameField] && a.name != b.name)
            || (p == [Spec, ParametersField] && a.parameters.GetOr(map[]) != b.parameters.GetOr(map[]))
            || (p == [Spec, PermissionsField] &&
                PermissionsDiffer(a.tableDefaultPermissions.GetOr([]), b.tableDefaultPermissions.GetOr([])))
            || (p == [Spec, TagsField] && TagValues(a.tags) != TagValues(b.tags))
            || FederatedDiffersAt(a.federatedDatabase, b.federatedDatabase, p)
            || TargetDiffersAt(a.targetDatabase, b.targetDatabase, p)
  {
    PointerThenPlain(TagValues(a.tags));
    PointerThenPlain(TagValues(b.tags));
    PermissionsDifferExactly(a.tableDefaultPermissions.GetOr([]), b.tableDefaultPermissions.GetOr([]));
    StructPathsExactly(a, b, p);
    ScalarMembers([], Normal(a), Normal(b), p);
    CollectionMembers(ScalarPaths([], Normal(a), Normal(b)), Normal(a), Normal(b), p);
  }

  predicate FederatedDiffersAt(a: Option<FederatedDatabase>, b: Option<FederatedDatabase>, p: Path) {
    if a.Some? && b.Some? then
      || (p == [Spec, FederatedField, ConnectionNameField] && a.value.connectionName != b.value.connectionName)
      || (p == [Spec, FederatedField, IdentifierField] && a.value.identifier != b.value.identifier)
    else p == [Spec, FederatedField] && a.Some? != b.Some?
  }

  predicate TargetDiffersAt(a: Option<DatabaseIdentifier>, b: Option<DatabaseIdentifier>, p: Path) {
    if a.Some? && b.Some? then
      || (p == [Spec, TargetField, CatalogIDField] && a.value.catalogID != b.value.catalogID)
      || (p == [Spec, TargetField, DatabaseNameField] && a.value.databaseName != b.value.databaseName)
      || (p == [Spec, TargetField, RegionField] && a.value.region != b.value.region)
    else p == [Spec, TargetField] && a.Some? != b.Some?
  }

  lemma StructPathsExactly(a: DatabaseSpec, b: DatabaseSpec, p: Path)
    ensures p in FederatedPaths(a.federatedDatabase, b.federatedDatabase) <==>
            FederatedDiffersAt(a.federatedDatabase, b.federatedDatabase, p)
    ensures p in TargetPaths(a.targetDatabase, b.targetDatabase) <==>
            TargetDiffersAt(a.targetDatabase, b.targetDatabase, p)
  {
  }

  lemma ScalarMembers(found: seq<Path>, x: DatabaseSpec, y: DatabaseSpec, p: Path)
    ensures p in ScalarPaths(found, x, y) <==>
            || p in found
            || (p == CATALOG_ID && x.catalogID != y.catalogID)
            || (p == DESCRIPTION && x.description != y.description)
            || p in FederatedPaths(x.federatedDatabase, y.federatedDatabase)
            || (p == LOCATION && x.locationURI != y.locationURI)
            || (p == NAME && x.name != y.name)
  {
  }

  lemma CollectionMembers(found: seq<Path>, x: DatabaseSpec, y: DatabaseSpec, p: Path)
    ensures p in CollectionPaths(found, x, y) <==>
            || p in found
            || (p == PARAMETERS && x.parameters != y.parameters)
            || (p == PERMISSIONS && x.tableDefaultPermissions != y.tableDefaultPermissions)
            || (p == TAGS && x.tags != y.tags)
            || p in TargetPaths(x.targetDatabase, y.targetDatabase)
  {
  }

  /** Equal sizes and one-way agreement are enough for map equality. */
  lemma EqualMaps<V>(a: map<string, V>, b: map<string, V>)
    ensures (|a| == |b| && forall k | k in a :: k in b && a[k] == b[k]) <==> a == b
  {
    if |a| == |b| && forall k | k in a :: k in b && a[k] == b[k] {
      assert a.Keys <= b.Keys;
      SubsetOfSameSize(a.Keys, b.Keys);
    }
  }

  lemma SubsetOfSameSize(a: set<string>, b: set<string>)
    requires a <= b && |a| == |b|
    ensures a == b
  {
    assert b == a + (b - a);
  }

  lemma {:induction false} SemanticEqualIsNormalEqual(
    a: seq<Option<PrincipalPermissions>>, b: seq<Option<PrincipalPermissions>>)
    ensures SemanticEqual(a, b) <==> NormalPermissions(a) == NormalPermissions(b)
  {
    if |a| == |b| && |a| > 0 {
      SemanticEqualIsNormalEqual(a[1..], b[1..]);
      var x, y := NormalPermissions(a), NormalPermissions(b);
      assert x == [x[0]] + NormalPermissions(a[1..]) && y == [y[0]] + NormalPermissions(b[1..]);
      assert x == y <==> x[0] == y[0] && x[1..] == y[1..];
    } else {
      assert |NormalPermissions(a)| == |a| && |NormalPermissions(b)| == |b|;
    }
  }

  /** The drift relation is the kernel of the normal form. */
  lemma DeltaIsNormalForm(a: DatabaseSpec, b: DatabaseSpec)
    ensures DeltaPaths(a, b) == [] <==> Normal(a) == Normal(b)
  {
    var x, y := Normal(a), Normal(b);
    var f, g := x.federatedDatabase, y.federatedDatabase;
    assert FederatedPaths(f, g) == [] <==> f == g;
    assert TargetPaths(x.targetDatabase, y.targetDatabase) == [] <==> x.targetDatabase == y.targetDatabase;
  }

  /** "No drift" is an equivalence relation. */
  lemma NoDriftIsEquivalence(a: DatabaseSpec, b: DatabaseSpec, c: DatabaseSpec)
    ensures DeltaPaths(a, a) == []
    ensures DeltaPaths(a, b) == [] ==> DeltaPaths(b, a) == []
    ensures DeltaPaths(a, b) == [] && DeltaPaths(b, c) == [] ==> DeltaPaths(a, c) == []
  {
    DeltaIsNormalForm(a, a);
    DeltaIsNormalForm(a, b);
    DeltaIsNormalForm(b, a);
    DeltaIsNormalForm(b, c);
    DeltaIsNormalForm(a, c);
  }

  /** Desired against latest and latest against desired report the same paths. */
  lemma DriftIsSymmetric(a: DatabaseSpec, b: DatabaseSpec)
    ensures DeltaPaths(a, b) == DeltaPaths(b, a)
  {
    var x, y := Normal(a), Normal(b);
    var f, g := x.federatedDatabase, y.federatedDatabase;
    assert FederatedPaths(f, g) == FederatedPaths(g, f);
    assert TargetPaths(x.targetDatabase, y.targetDatabase) == TargetPaths(y.targetDatabase, x.targetDatabase);
  }

  /** Bringing a spec to normal form is no drift, and is done once. */
  lemma NormalIsNormal(a: DatabaseSpec)
    ensures Normal(Normal(a)) == Normal(a)
    ensures DeltaPaths(Normal(a), a) == []
  {
    PointerThenPlain(TagValues(a.tags));
    var ps := a.tableDefaultPermissions.GetOr([]);
    assert NormalPermissions(NormalPermissions(ps)) == NormalPermissions(ps);
    DeltaIsNormalForm(Normal(a), a);
  }

  /** None of the paths lies at or below the given spec field. */
  ghost predicate Away(ps: seq<Path>, field: Segment) {
    forall i :: 0 <= i < |ps| ==> |ps[i]| >= 2 && ps[i][1] != field
  }

  lemma TagsAmongOthers(before: seq<Path>, differ: bool, behind: seq<Path>)
    requires Away(before, TagsField) && Away(behind, TagsField)
    ensures var all := before + At(differ, TAGS) + behind;
            && (DifferentAt(all, TAGS) <==> differ)
            && (DifferentExcept(all, TAGS) <==> before != [] || behind != [])
  {
    var all := before + At(differ, TAGS) + behind;
    assert TAGS[1] == TagsField;
    forall i | 0 <= i < |all| ensures TAGS <= all[i] <==> differ && i == |before| {
      assert i < |before| ==> all[i] == before[i];
      assert i >= |before| + |At(differ, TAGS)| ==> all[i] == behind[i - |before| - |At(differ, TAGS)|];
    }
    if differ {
      assert all[|before|] == TAGS;
    }
    if before != [] {
      assert !(TAGS <= all[0]);
    }
    if behind != [] {
      assert !(TAGS <= all[|all| - 1]);
    }
  }

  /** The two questions `sdkUpdate` asks of a delta, in terms of the specs. */
  lemma QuestionsOfDelta(a: DatabaseSpec, b: DatabaseSpec)
    ensures DifferentAt(DeltaPaths(a, b), TAGS) <==> TagValues(a.tags) != TagValues(b.tags)
    ensures DifferentExcept(DeltaPaths(a, b), TAGS) <==> !SameButTags(a, b)
  {
    var x, y := Normal(a), Normal(b);
    PointerThenPlain(TagValues(a.tags));
    PointerThenPlain(TagValues(b.tags));
    ScalarPathsAway(x, y);
    var before := AppendAway(AppendAway(ScalarPaths([], x, y), TagsField, x.parameters != y.parameters, PARAMETERS),
                             TagsField, x.tableDefaultPermissions != y.tableDefaultPermissions, PERMISSIONS);
    var behind := TargetPaths(x.targetDatabase, y.targetDatabase);
    OptionalStructsAway(x, y, TagsField);
    TagsAmongOthers(before, x.tags != y.tags, behind);
    assert DeltaPaths(a, b) == before + At(x.tags != y.tags, TAGS) + behind;
  }

  lemma ScalarPathsAway(x: DatabaseSpec, y: DatabaseSpec)
    ensures Away(ScalarPaths([], x, y), TagsField)
    ensures ScalarPaths([], x, y) == [] <==>
            && x.catalogID == y.catalogID && x.description == y.description
            && x.federatedDatabase == y.federatedDatabase
            && x.locationURI == y.locationURI && x.name == y.name
  {
    var two := AppendAway(AppendAway([], TagsField, x.catalogID != y.catalogID, CATALOG_ID),
                          TagsField, x.description != y.description, DESCRIPTION);
    var f := FederatedPaths(x.federatedDatabase, y.federatedDatabase);
    OptionalStructsAway(x, y, TagsField);
    JoinAway(two, f, TagsField);
    var four := AppendAway(two + f, TagsField, x.locationURI != y.locationURI, LOCATION);
    var five := AppendAway(four, TagsField, x.name != y.name, NAME);
    assert five == ScalarPaths([], x, y);
  }

  lemma OptionalStructsAway(x: DatabaseSpec, y: DatabaseSpec, field: Segment)
    requires field != FederatedField && field != TargetField
    ensures var f := FederatedPaths(x.federatedDatabase, y.federatedDatabase);
            Away(f, field) && (f == [] <==> x.federatedDatabase == y.federatedDatabase)
    ensures var t := TargetPaths(x.targetDatabase, y.targetDatabase);
            Away(t, field) && (t == [] <==> x.targetDatabase == y.targetDatabase)
  {
    FederatedAway(x.federatedDatabase, y.federatedDatabase, field);
    TargetAway(x.targetDatabase, y.targetDatabase, field);
  }

  lemma FederatedAway(a: Option<FederatedDatabase>, b: Option<FederatedDatabase>, field: Segment)
    requires field != FederatedField
    ensures Away(FederatedPaths(a, b), field) && (FederatedPaths(a, b) == [] <==> a == b)
  {
  }

  lemma TargetAway(a: Option<DatabaseIdentifier>, b: Option<DatabaseIdentifier>, field: Segment)
    requires field != TargetField
    ensures Away(TargetPaths(a, b), field) && (TargetPaths(a, b) == [] <==> a == b)
  {
  }

  lemma JoinAway(ps: seq<Path>, qs: seq<Path>, field: Segment)
    requires Away(ps, field) && Away(qs, field)
    ensures Away(ps + qs, field) && (ps + qs == [] <==> ps == [] && qs == [])
  {
  }

  ghost function AppendAway(ps: seq<Path>, field: Segment, differ: bool, path: Path): (r: seq<Path>)
    requires Away(ps, field) && |path| >= 2 && path[1] != field
    ensures r == ps + At(differ, path)
    ensures Away(r, field) && (r == [] <==> ps == [] && !differ)
  {
    ps + At(differ, path)
  }

  /** Equal in normal form but for the tags. */
  predicate SameButTags(a: DatabaseSpec, b: DatabaseSpec) {
    Normal(a).(tags := None) == Normal(b).(tags := None)
  }
}
