/** The generated deep copies of apis/v1alpha1/zz_generated.deepcopy.go, on a heap where every
    Go pointer, slice and map is an object of its own. A copy starts as an alias of its input
    field by field (`*out = *in`) and is then rebuilt; it ends up equal in value and sharing
    nothing. The rest of the model holds specs as values for that reason. */
module DeepCopies {
  import opened Types
  import opened Tags

  // ---------- the heap ----------

  /** A `*string`. The cell has an identity, but nothing here writes to one after creating it. */
  class StringCell {
    const v: string

    constructor (v: string)
      ensures this.v == v
    {
      this.v := v;
    }
  }

  function StringVal(p: StringCell?): Option<string> {
    if p == null then None else Some(p.v)
  }

  /** Both nil, or both pointing to the same text. */
  predicate SameString(p: StringCell?, q: StringCell?) {
    (p == null <==> q == null) && (p != null && q != null ==> p.v == q.v)
  }

  /** A `map[string]*string`. */
  class MapCell {
    var m: map<string, StringCell?>

    constructor ()
      ensures m == map[]
    {
      m := map[];
    }
  }

  function CellMap(m: map<string, StringCell?>): StringMap {
    map k | k in m :: StringVal(m[k])
  }

  function MapVal(p: MapCell?): Option<StringMap>
    reads p
  {
    if p == null then None else Some(CellMap(p.m))
  }

  function CellSeq(s: seq<StringCell?>): (r: seq<Option<string>>) {
    seq(|s|, i requires 0 <= i < |s| => StringVal(s[i]))
  }

  /** A `[]*string`. */
  function SliceVal(a: array?<StringCell?>): Option<seq<Option<string>>>
    reads a
  {
    if a == null then None else Some(CellSeq(a[..]))
  }

  ghost function SliceReach(a: array?<StringCell?>): set<object?>
    reads a
  {
    if a == null then {} else {a} + set c: StringCell? | c in a[..] :: c as object?
  }

  ghost function MapReach(p: MapCell?): set<object?>
    reads p
  {
    if p == null then {} else {p} + set k | k in p.m :: p.m[k] as object?
  }

  // ---------- the copying patterns ----------

  method CopyString(p: StringCell) returns (q: StringCell)
    ensures fresh(q) && q.v == p.v
  {
    q := new StringCell(p.v);
  }

  method CopySlice(a: array<StringCell?>) returns (b: array<StringCell?>)
    ensures fresh(SliceReach(b) - {null})
    ensures SliceVal(b) == old(SliceVal(a))
  {
    b := new StringCell?[a.Length](i => null);
    for i := 0 to a.Length
      invariant fresh(b) && b.Length == a.Length && a[..] == old(a[..])
      invariant forall j :: 0 <= j < i ==> StringVal(b[j]) == StringVal(a[j]) && (b[j] == null || fresh(b[j]))
      invariant forall j :: i <= j < b.Length ==> b[j] == null
    {
      if a[i] != null {
        b[i] := CopyString(a[i]);
      }
    }
    assert CellSeq(b[..]) == CellSeq(a[..]);
  }

  method CopyMap(p: MapCell) returns (q: MapCell)
    ensures fresh(MapReach(q) - {null})
    ensures MapVal(q) == old(MapVal(p))
  {
    q := new MapCell();
    var todo := p.m.Keys;
    while todo != {}
      invariant fresh(q) && todo <= p.m.Keys
      invariant q.m.Keys == p.m.Keys - todo
      invariant forall k | k in q.m :: StringVal(q.m[k]) == StringVal(p.m[k]) && (q.m[k] == null || fresh(q.m[k]))
      decreases |todo|
    {
      var key :| key in todo;
      if p.m[key] == null {
        q.m := q.m[key := null];
      } else {
        var outVal := CopyString(p.m[key]);
        q.m := q.m[key := outVal];
      }
      todo := todo - {key};
    }
    assert CellMap(q.m) == CellMap(p.m);
  }

  // ---------- structs ----------

  class PrincipalCell {
    var identifier: StringCell?

    constructor ()
    {
      identifier := null;
    }

    function Val(): DataLakePrincipal
      reads this
    {
      DataLakePrincipal(StringVal(identifier))
    }

    /** Every object reachable from this one. */
    ghost function Reach(): set<object?>
      reads this
    {
      {this, identifier}
    }

    method DeepCopyInto(out: PrincipalCell)
      requires out != this
      modifies out
      ensures out.Val() == old(Val())
      ensures fresh(out.Reach() - {out, null})
      ensures SameString(out.identifier, identifier) && (out.identifier != null ==> fresh(out.identifier))
    {
      out.identifier := identifier;
      if identifier != null {
        out.identifier := CopyString(identifier);
      }
    }
  }

  class PermissionsCell {
    var permissions: array?<StringCell?>
    var principal: PrincipalCell?

    constructor ()
    {
      permissions, principal := null, null;
    }

    function Val(): PrincipalPermissions
      reads this, permissions, principal
    {
      PrincipalPermissions(SliceVal(permissions), if principal == null then None else Some(principal.Val()))
    }

    ghost function Reach(): set<object?>
      reads this, permissions, principal
    {
      {this} + SliceReach(permissions) + (if principal == null then {} else principal.Reach())
    }

    method DeepCopyInto(out: PermissionsCell)
      requires out != this
      modifies out
      ensures out.Val() == old(Val())
      ensures fresh(out.Reach() - {out, null})
    {
      out.permissions, out.principal := permissions, principal;
      if permissions != null {
        out.permissions := CopySlice(permissions);
      }
      if principal != null {
        var p := new PrincipalCell();
        principal.DeepCopyInto(p);
        out.principal := p;
      }
    }
  }

  class FederatedCell {
    var connectionName: StringCell?
    var identifier: StringCell?

    constructor ()
    {
      connectionName, identifier := null, null;
    }

    function Val(): FederatedDatabase
      reads this
    {
      FederatedDatabase(StringVal(connectionName), StringVal(identifier))
    }

    ghost function Reach(): set<object?>
      reads this
    {
      {this, connectionName, identifier}
    }

    method DeepCopyInto(out: FederatedCell)
      requires out != this
      modifies out
      ensures out.Val() == old(Val())
      ensures fresh(out.Reach() - {out, null})
      ensures SameString(out.connectionName, connectionName) && SameString(out.identifier, identifier)
      ensures out.connectionName != null ==> fresh(out.connectionName)
      ensures out.identifier != null ==> fresh(out.identifier)
    {
      out.connectionName, out.identifier := connectionName, identifier;
      if connectionName != null {
        out.connectionName := CopyString(connectionName);
      }
      if identifier != null {
        out.identifier := CopyString(identifier);
      }
    }
  }

  class IdentifierCell {
    var catalogID: StringCell?
    var databaseName: StringCell?
    var region: StringCell?

    constructor ()
    {
      catalogID, databaseName, region := null, null, null;
    }

    function Val(): DatabaseIdentifier
      reads this
    {
      DatabaseIdentifier(StringVal(catalogID), StringVal(databaseName), StringVal(region))
    }

    ghost function Reach(): set<object?>
      reads this
    {
      {this, catalogID, databaseName, region}
    }

    method DeepCopyInto(out: IdentifierCell)
      requires out != this
      modifies out
      ensures out.Val() == old(Val())
      ensures fresh(out.Reach() - {out, null})
      ensures SameString(out.catalogID, catalogID) && SameString(out.databaseName, databaseName)
      ensures SameString(out.region, region)
      ensures out.catalogID != null ==> fresh(out.catalogID)
      ensures out.databaseName != null ==> fresh(out.databaseName)
      ensures out.region != null ==> fresh(out.region)
    {
      out.catalogID, out.databaseName, out.region := catalogID, databaseName, region;
      if catalogID != null {
        out.catalogID := CopyString(catalogID);
      }
      if databaseName != null {
        out.databaseName := CopyString(databaseName);
      }
      if region != null {
        out.region := CopyString(region);
      }
    }
  }

  // ---------- []*PrincipalPermissions ----------

  /** What the value of an entry is read from. */
  ghost function EntryHeap(p: PermissionsCell?): set<object?>
    reads p
  {
    if p == null then {} else {p, p.permissions, p.principal}
  }

  ghost function EntryVal(p: PermissionsCell?): Option<PrincipalPermissions>
    reads p, EntryHeap(p)
  {
    if p == null then None else Some(p.Val())
  }

  ghost function EntryReach(p: PermissionsCell?): set<object?>
    reads p, EntryHeap(p)
  {
    if p == null then {} else p.Reach()
  }

  ghost function ListHeap(a: array?<PermissionsCell?>): set<object?>
    reads a, if a == null then {} else set p: PermissionsCell? | p in a[..] :: p
  {
    if a == null then {} else {a} + (set p: PermissionsCell? | p in a[..] :: p as object?) +
                              (set p: PermissionsCell?, o: object? | p in a[..] && o in EntryHeap(p) :: o)
  }

  ghost function ListVal(a: array?<PermissionsCell?>): (r: Option<seq<Option<PrincipalPermissions>>>)
    reads a, (if a == null then {} else set p: PermissionsCell? | p in a[..] :: p), ListHeap(a)
    ensures a == null <==> r.None?
    ensures r.Some? ==> |r.value| == a.Length
  {
    if a == null then None
    else Some(seq(a.Length,
                  j requires 0 <= j < a.Length reads a, (set p: PermissionsCell? | p in a[..] :: p), ListHeap(a) =>
                    assert a[j] in a[..];
                    assert forall o | o in EntryHeap(a[j]) :: o in ListHeap(a);
                    EntryVal(a[j])))
  }

  lemma ListValAt(a: array<PermissionsCell?>)
    ensures ListVal(a).Some? && |ListVal(a).value| == a.Length
    ensures forall j :: 0 <= j < a.Length ==> ListVal(a).value[j] == EntryVal(a[j])
  {
  }

  ghost function ListReach(a: array?<PermissionsCell?>): set<object?>
    reads a, (if a == null then {} else set p: PermissionsCell? | p in a[..] :: p), ListHeap(a)
  {
    if a == null then {} else {a} + set p: PermissionsCell?, o: object? | p in a[..] && o in ReachIn(a, p) :: o
  }

  ghost function ReachIn(a: array<PermissionsCell?>, p: PermissionsCell?): set<object?>
    requires p in a[..]
    reads a, (set q: PermissionsCell? | q in a[..] :: q), ListHeap(a)
  {
    assert forall o | o in EntryHeap(p) :: o in ListHeap(a);
    EntryReach(p)
  }

  method CopyEntry(p: PermissionsCell?) returns (q: PermissionsCell?)
    ensures EntryVal(q) == old(EntryVal(p))
    ensures fresh(EntryReach(q) - {null})
  {
    q := null;
    if p != null {
      q := new PermissionsCell();
      p.DeepCopyInto(q);
    }
  }

  /** The loop over the entries. */
  method CopyEntries(a: array<PermissionsCell?>) returns (done: seq<PermissionsCell?>)
    ensures |done| == a.Length
    ensures forall j :: 0 <= j < a.Length ==> EntryVal(done[j]) == old(EntryVal(a[j]))
    ensures forall j :: 0 <= j < a.Length ==> fresh(EntryReach(done[j]) - {null})
  {
    done := [];
    for i := 0 to a.Length
      invariant |done| == i
      invariant forall j :: 0 <= j < a.Length ==> EntryVal(a[j]) == old(EntryVal(a[j]))
      invariant forall j :: 0 <= j < i ==> EntryVal(done[j]) == old(EntryVal(a[j]))
      invariant forall j :: 0 <= j < i ==> fresh(EntryReach(done[j]) - {null})
    {
      var c := CopyEntry(a[i]);
      done := done + [c];
    }
  }

  method CopyList(a: array<PermissionsCell?>) returns (b: array<PermissionsCell?>)
    ensures ListVal(b) == old(ListVal(a))
    ensures fresh(ListReach(b) - {null})
  {
    ghost var vals := ListVal(a).value;
    ListValAt(a);
    var done := CopyEntries(a);
    b := new PermissionsCell?[|done|](i requires 0 <= i < |done| => done[i]);
    ListValAt(b);
    assert ListVal(b).value == vals;
  }

  // ---------- DatabaseSpec ----------

  class SpecCell {
    var catalogID: StringCell?
    var description: StringCell?
    var federatedDatabase: FederatedCell?
    var locationURI: StringCell?
    var name: StringCell?
    var parameters: MapCell?
    var tableDefaultPermissions: array?<PermissionsCell?>
    var tags: MapCell?
    var targetDatabase: IdentifierCell?

    constructor ()
    {
      catalogID, description, locationURI, name := null, null, null, null;
      federatedDatabase, targetDatabase := null, null;
      parameters, tags, tableDefaultPermissions := null, null, null;
    }

    /** The value the rest of the model works with. */
    ghost function Val(): DatabaseSpec
      reads this, federatedDatabase, targetDatabase, parameters, tags, tableDefaultPermissions
      reads if tableDefaultPermissions == null then {}
            else set p: PermissionsCell? | p in tableDefaultPermissions[..] :: p
      reads ListHeap(tableDefaultPermissions)
    {
      Scalars().(tableDefaultPermissions := ListVal(tableDefaultPermissions))
    }

    /** The value but for the permissions. */
    ghost function Scalars(): DatabaseSpec
      reads this, federatedDatabase, targetDatabase, parameters, tags
    {
      DatabaseSpec(
        StringVal(catalogID),
        StringVal(description),
        FederatedVal(federatedDatabase),
        StringVal(locationURI),
        StringVal(name),
        MapVal(parameters),
        None,
        MapVal(tags),
        TargetVal(targetDatabase))
    }

    /** Every object below this one, but for the permissions. */
    ghost function ScalarReach(): set<object?>
      reads this, federatedDatabase, targetDatabase, parameters, tags
    {
      {catalogID, description, locationURI, name} +
      FederatedReach(federatedDatabase) + TargetReach(targetDatabase) + MapReach(parameters) + MapReach(tags)
    }

    /** The copy has the value its input had, and no object below it existed before, so that it shares
        nothing. Nothing but the copy is written to, so the input is as it was. */
    method DeepCopyInto(out: SpecCell)
      requires out != this
      modifies out
      ensures out.Val() == old(Val())
      ensures fresh(out.ScalarReach() - {null})
      ensures forall o | o in ListReach(out.tableDefaultPermissions) && o != null :: fresh(o)
    {
      CopyAllButPermissions(out);
      CopyPermissions(out);
    }

    method CopyAllButPermissions(out: SpecCell)
      requires out != this
      modifies out
      ensures out.tableDefaultPermissions == tableDefaultPermissions
      ensures ListVal(tableDefaultPermissions) == old(ListVal(tableDefaultPermissions))
      ensures out.Scalars() == old(Scalars())
      ensures fresh(out.ScalarReach() - {null})
    {
      ghost var list, was := tableDefaultPermissions, ListVal(tableDefaultPermissions);
      if list != null {
        ListValAt(list);
      }
      CopyScalars(out);
      if list != null {
        ListValAt(list);
        assert forall j :: 0 <= j < list.Length ==> EntryVal(list[j]) == was.value[j];
        assert ListVal(list).value == was.value;
      }
    }

    method CopyScalars(out: SpecCell)
      requires out != this
      modifies out
      ensures out.tableDefaultPermissions == tableDefaultPermissions
      ensures out.Scalars() == old(Scalars())
      ensures fresh(out.ScalarReach() - {null})
    {
      ghost var v := Scalars();
      AliasAndCopyStructs(out);
      CopyMapsAndStrings(out);
      assert FederatedVal(out.federatedDatabase) == v.federatedDatabase;
      assert TargetVal(out.targetDatabase) == v.targetDatabase;
    }

    method CopyMapsAndStrings(out: SpecCell)
      requires out != this && out.parameters == parameters && out.tags == tags
      requires out.catalogID == catalogID && out.description == description
      requires out.locationURI == locationURI && out.name == name
      modifies out`parameters, out`tags, out`catalogID, out`description, out`locationURI, out`name
      ensures MapVal(out.parameters) == old(MapVal(parameters)) && MapVal(out.tags) == old(MapVal(tags))
      ensures fresh(MapReach(out.parameters) - {null}) && fresh(MapReach(out.tags) - {null})
      ensures StringVal(out.catalogID) == StringVal(catalogID) && StringVal(out.description) == StringVal(description)
      ensures StringVal(out.locationURI) == StringVal(locationURI) && StringVal(out.name) == StringVal(name)
      ensures fresh({out.catalogID, out.description, out.locationURI, out.name} - {null})
    {
      CopyMaps(out);
      CopyStrings(out);
    }

    /** The aliasing copy `*out = *in`, which the other steps then break. */
    method Alias(out: SpecCell)
      requires out != this
      modifies out
      ensures out.catalogID == catalogID && out.description == description
      ensures out.locationURI == locationURI && out.name == name
      ensures out.parameters == parameters && out.tags == tags && out.tableDefaultPermissions == tableDefaultPermissions
      ensures out.federatedDatabase == federatedDatabase && out.targetDatabase == targetDatabase
    {
      out.catalogID, out.description, out.federatedDatabase := catalogID, description, federatedDatabase;
      out.locationURI, out.name, out.parameters := locationURI, name, parameters;
      out.tableDefaultPermissions, out.tags, out.targetDatabase := tableDefaultPermissions, tags, targetDatabase;
    }

    method AliasAndCopyStructs(out: SpecCell)
      requires out != this
      modifies out
      ensures out.catalogID == catalogID && out.description == description
      ensures out.locationURI == locationURI && out.name == name
      ensures out.parameters == parameters && out.tags == tags && out.tableDefaultPermissions == tableDefaultPermissions
      ensures FederatedVal(out.federatedDatabase) == old(FederatedVal(federatedDatabase))
      ensures TargetVal(out.targetDatabase) == old(TargetVal(targetDatabase))
      ensures MapVal(parameters) == old(MapVal(parameters)) && MapVal(tags) == old(MapVal(tags))
      ensures fresh(FederatedReach(out.federatedDatabase) - {null}) && fresh(TargetReach(out.targetDatabase) - {null})
    {
      Alias(out);
      CopyStructs(out);
    }

    method CopyStrings(out: SpecCell)
      requires out != this
      requires out.catalogID == catalogID && out.description == description
      requires out.locationURI == locationURI && out.name == name
      modifies out`catalogID, out`description, out`locationURI, out`name
      ensures StringVal(out.catalogID) == StringVal(catalogID) && StringVal(out.description) == StringVal(description)
      ensures StringVal(out.locationURI) == StringVal(locationURI) && StringVal(out.name) == StringVal(name)
      ensures fresh({out.catalogID, out.description, out.locationURI, out.name} - {null})
    {
      if catalogID != null {
        out.catalogID := CopyString(catalogID);
      }
      if description != null {
        out.description := CopyString(description);
      }
      if locationURI != null {
        out.locationURI := CopyString(locationURI);
      }
      if name != null {
        out.name := CopyString(name);
      }
    }

    method CopyStructs(out: SpecCell)
      requires out != this && out.federatedDatabase == federatedDatabase && out.targetDatabase == targetDatabase
      modifies out`federatedDatabase, out`targetDatabase
      ensures FederatedVal(out.federatedDatabase) == old(FederatedVal(federatedDatabase))
      ensures TargetVal(out.targetDatabase) == old(TargetVal(targetDatabase))
      ensures fresh(FederatedReach(out.federatedDatabase) - {null}) && fresh(TargetReach(out.targetDatabase) - {null})
    {
      if federatedDatabase != null {
        var f := new FederatedCell();
        federatedDatabase.DeepCopyInto(f);
        out.federatedDatabase := f;
      }
      if targetDatabase != null {
        var t := new IdentifierCell();
        targetDatabase.DeepCopyInto(t);
        out.targetDatabase := t;
      }
    }

    method CopyMaps(out: SpecCell)
      requires out != this && out.parameters == parameters && out.tags == tags
      modifies out`parameters, out`tags
      ensures MapVal(out.parameters) == old(MapVal(parameters)) && MapVal(out.tags) == old(MapVal(tags))
      ensures fresh(MapReach(out.parameters) - {null}) && fresh(MapReach(out.tags) - {null})
    {
      if parameters != null {
        out.parameters := CopyMap(parameters);
      }
      if tags != null {
        out.tags := CopyMap(tags);
      }
    }

    method CopyPermissions(out: SpecCell)
      requires out != this && out.tableDefaultPermissions == tableDefaultPermissions
      modifies out`tableDefaultPermissions
      ensures ListVal(out.tableDefaultPermissions) == old(ListVal(tableDefaultPermissions))
      ensures forall o | o in ListReach(out.tableDefaultPermissions) && o != null :: fresh(o)
    {
      if tableDefaultPermissions != null {
        var list := CopyList(tableDefaultPermissions);
        NotInList(list, out);
        out.tableDefaultPermissions := list;
      }
    }
  }

  function FederatedVal(p: FederatedCell?): Option<FederatedDatabase>
    reads p
  {
    if p == null then None else Some(p.Val())
  }

  function TargetVal(p: IdentifierCell?): Option<DatabaseIdentifier>
    reads p
  {
    if p == null then None else Some(p.Val())
  }

  ghost function FederatedReach(p: FederatedCell?): set<object?>
    reads p
  {
    if p == null then {} else p.Reach()
  }

  ghost function TargetReach(p: IdentifierCell?): set<object?>
    reads p
  {
    if p == null then {} else p.Reach()
  }

  // ---------- what equal values and reaching mean, field by field ----------

  predicate SameSlice(a: array?<StringCell?>, b: array?<StringCell?>)
    reads a, b
  {
    && (a == null <==> b == null)
    && (a != null && b != null ==>
          a.Length == b.Length && forall j :: 0 <= j < a.Length ==> SameString(a[j], b[j]))
  }

  predicate SameMap(p: MapCell?, q: MapCell?)
    reads p, q
  {
    && (p == null <==> q == null)
    && (p != null && q != null ==> p.m.Keys == q.m.Keys && forall k | k in p.m :: SameString(p.m[k], q.m[k]))
  }

  lemma SliceTells(a: array?<StringCell?>, b: array?<StringCell?>)
    ensures SliceVal(a) == SliceVal(b) <==> SameSlice(a, b)
    ensures a != null ==> a in SliceReach(a) && forall j :: 0 <= j < a.Length ==> a[j] in SliceReach(a)
  {
    if a != null && b != null {
      var x, y := CellSeq(a[..]), CellSeq(b[..]);
      assert |x| == a.Length && |y| == b.Length;
      if |x| == |y| {
        assert forall j :: 0 <= j < |x| ==> (x[j] == y[j] <==> SameString(a[j], b[j]));
        assert x == y <==> forall j :: 0 <= j < |x| ==> x[j] == y[j];
      }
    }
    if a != null {
      assert forall j :: 0 <= j < a.Length ==> a[j] in a[..];
    }
  }

  lemma MapTells(p: MapCell?, q: MapCell?)
    ensures MapVal(p) == MapVal(q) <==> SameMap(p, q)
    ensures p != null ==> p in MapReach(p) && forall k | k in p.m :: p.m[k] in MapReach(p)
  {
    if p != null && q != null {
      var x, y := CellMap(p.m), CellMap(q.m);
      assert x.Keys == p.m.Keys && y.Keys == q.m.Keys;
      if x.Keys == y.Keys {
        assert forall k | k in x :: x[k] == y[k] <==> SameString(p.m[k], q.m[k]);
        assert x == y <==> forall k | k in x :: x[k] == y[k];
      }
    }
  }

  predicate SamePrincipal(p: PrincipalCell?, q: PrincipalCell?)
    reads p, q
  {
    (p == null <==> q == null) && (p != null && q != null ==> SameString(p.identifier, q.identifier))
  }

  ghost predicate SameEntry(p: PermissionsCell?, q: PermissionsCell?)
    reads p, q, EntryHeap(p), EntryHeap(q)
  {
    && (p == null <==> q == null)
    && (p != null && q != null ==> SameSlice(p.permissions, q.permissions) && SamePrincipal(p.principal, q.principal))
  }

  lemma EntryTells(p: PermissionsCell?, q: PermissionsCell?)
    ensures EntryVal(p) == EntryVal(q) <==> SameEntry(p, q)
    ensures p != null ==> p in EntryReach(p) && SliceReach(p.permissions) <= EntryReach(p)
    ensures p != null && p.principal != null ==> {p.principal, p.principal.identifier} <= EntryReach(p)
  {
    if p != null && q != null {
      SliceTells(p.permissions, q.permissions);
    }
  }

  predicate SameFederated(p: FederatedCell?, q: FederatedCell?)
    reads p, q
  {
    && (p == null <==> q == null)
    && (p != null && q != null ==>
          SameString(p.connectionName, q.connectionName) && SameString(p.identifier, q.identifier))
  }

  predicate SameTarget(p: IdentifierCell?, q: IdentifierCell?)
    reads p, q
  {
    && (p == null <==> q == null)
    && (p != null && q != null ==>
          && SameString(p.catalogID, q.catalogID) && SameString(p.databaseName, q.databaseName)
          && SameString(p.region, q.region))
  }

  /** Two specs have the same value outside the permissions exactly when they agree pointer by pointer, and
      every one of those pointers is among the objects a copy makes new. */
  lemma ScalarsTell(x: SpecCell, y: SpecCell)
    ensures x.Scalars() == y.Scalars() <==>
            && SameString(x.catalogID, y.catalogID) && SameString(x.description, y.description)
            && SameString(x.locationURI, y.locationURI) && SameString(x.name, y.name)
            && SameFederated(x.federatedDatabase, y.federatedDatabase)
            && SameTarget(x.targetDatabase, y.targetDatabase)
            && SameMap(x.parameters, y.parameters) && SameMap(x.tags, y.tags)
    ensures {x.catalogID, x.description, x.locationURI, x.name} <= x.ScalarReach()
    ensures {x.federatedDatabase, x.targetDatabase, x.parameters, x.tags} - {null} <= x.ScalarReach()
    ensures x.federatedDatabase != null ==>
              {x.federatedDatabase.connectionName, x.federatedDatabase.identifier} <= x.ScalarReach()
    ensures x.targetDatabase != null ==>
              var t := x.targetDatabase; {t.catalogID, t.databaseName, t.region} <= x.ScalarReach()
  {
    MapTells(x.parameters, y.parameters);
    MapTells(x.tags, y.tags);
    MapTells(y.parameters, x.parameters);
    MapTells(y.tags, x.tags);
  }

  /** And the lists of permissions have the same value exactly when they agree entry by entry. */
  lemma ListTells(a: array?<PermissionsCell?>, b: array?<PermissionsCell?>)
    ensures ListVal(a) == ListVal(b) <==>
            && (a == null <==> b == null)
            && (a != null && b != null ==>
                  a.Length == b.Length && forall j :: 0 <= j < a.Length ==> SameEntry(a[j], b[j]))
    ensures a != null ==> a in ListReach(a) && forall j :: 0 <= j < a.Length ==> EntryReach(a[j]) <= ListReach(a)
  {
    if a != null {
      ListValAt(a);
      forall j | 0 <= j < a.Length ensures EntryReach(a[j]) <= ListReach(a) {
        assert a[j] in a[..] && ReachIn(a, a[j]) == EntryReach(a[j]);
      }
    }
    if a != null && b != null && a.Length == b.Length {
      ListValAt(b);
      forall j | 0 <= j < a.Length ensures EntryVal(a[j]) == EntryVal(b[j]) <==> SameEntry(a[j], b[j]) {
        EntryTells(a[j], b[j]);
      }
      assert ListVal(a).value == ListVal(b).value <==>
             forall j :: 0 <= j < a.Length ==> ListVal(a).value[j] == ListVal(b).value[j];
    }
    if b != null {
      ListValAt(b);
    }
  }

  lemma ValIsBoth(x: SpecCell, y: SpecCell)
    ensures x.Val() == y.Val() <==>
            x.Scalars() == y.Scalars() && ListVal(x.tableDefaultPermissions) == ListVal(y.tableDefaultPermissions)
  {
    assert x.Scalars().tableDefaultPermissions == y.Scalars().tableDefaultPermissions == None;
    assert x.Val().(tableDefaultPermissions := None) == x.Scalars();
    assert y.Val().(tableDefaultPermissions := None) == y.Scalars();
  }

  lemma NotInList(a: array?<PermissionsCell?>, x: SpecCell)
    ensures (x as object?) !in ListHeap(a)
  {
  }

  // ---------- pointers to tag values ----------

  /** The loop of `fromACKTags` and of `GetResourceTags` down to its pointers: the address it takes is that of a
      new cell in each iteration (go.mod:3 selects per-iteration loop variables), so no two keys share one. */
  method ValueCells(values: Plain) returns (result: MapCell)
    ensures fresh(result) && MapVal(result) == Some(PointerMap(values))
    ensures forall k | k in result.m :: result.m[k] != null && fresh(result.m[k])
    ensures forall k, l | k in result.m && l in result.m && k != l :: result.m[k] != result.m[l]
  {
    result := new MapCell();
    var todo := values.Keys;
    while todo != {}
      invariant fresh(result) && todo <= values.Keys
      invariant result.m.Keys == values.Keys - todo
      invariant forall k | k in result.m :: result.m[k] != null && fresh(result.m[k]) && result.m[k].v == values[k]
      invariant forall k, l | k in result.m && l in result.m && k != l :: result.m[k] != result.m[l]
      decreases |todo|
    {
      var k :| k in todo;
      var v := new StringCell(values[k]);
      result.m := result.m[k := v];
      todo := todo - {k};
    }
    assert CellMap(result.m) == PointerMap(values);
  }
}
