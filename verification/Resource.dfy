/** The mutable objects: the Database custom resource (`ko`), the entries of its condition
    list, which are edited through pointers, and the resource manager. */
module Resource {
  import opened Types
  import opened Conditions
  import opened Glue

  /** A pointer to a condition struct. */
  class Condition {
    var v: Cond

    constructor (c: Cond)
      ensures v == c
    {
      v := c;
    }
  }

  function CondValues(cs: seq<Condition>): (r: seq<Cond>)
    reads cs
    ensures |r| == |cs|
    ensures forall i :: 0 <= i < |cs| ==> r[i] == cs[i].v
  {
    seq(|cs|, i requires 0 <= i < |cs| reads cs => cs[i].v)
  }

  ghost predicate Distinct(cs: seq<Condition>) {
    forall i, j :: 0 <= i < j < |cs| ==> cs[i] != cs[j]
  }

  class Database {
    var spec: DatabaseSpec
    var metadata: Option<ResourceMetadata>
    var conditions: Option<seq<Condition>>

    constructor (spec: DatabaseSpec, metadata: Option<ResourceMetadata>, conditions: Option<seq<Condition>>)
      ensures this.spec == spec && this.metadata == metadata && this.conditions == conditions
    {
      this.spec, this.metadata, this.conditions := spec, metadata, conditions;
    }

    /** The condition objects; a nil list has none. */
    function Entries(): seq<Condition>
      reads this`conditions
    {
      conditions.GetOr([])
    }

    function Conds(): seq<Cond>
      reads this`conditions, Entries()
    {
      CondValues(Entries())
    }

    /** `DeepCopy`: the spec and the metadata are values here, so what needs copying is the list of
        condition objects. Module DeepCopies shows for the spec that a copy is equal and shares nothing. */
    method DeepCopy() returns (out: Database)
      ensures fresh(out) && fresh(out.Entries()) && Distinct(out.Entries())
      ensures out.spec == spec && out.metadata == metadata
      ensures out.conditions.Some? == conditions.Some?
      ensures out.Conds() == Conds()
    {
      var copied: Option<seq<Condition>> := None;
      if conditions.Some? {
        var entries := conditions.value;
        var list: seq<Condition> := [];
        for i := 0 to |entries|
          invariant |list| == i
          invariant fresh(list) && Distinct(list)
          invariant forall j :: 0 <= j < i ==> list[j].v == entries[j].v
        {
          var c := new Condition(entries[i].v);
          list := list + [c];
        }
        copied := Some(list);
      }
      out := new Database(spec, metadata, copied);
      assert out.Conds() == Conds();
    }
  }

  /** A condition list none of whose entries was written to reads as before. */
  twostate lemma CondsKept(ko: Database)
    requires ko.conditions == old(ko.conditions)
    requires forall i :: 0 <= i < |ko.Entries()| ==> ko.Entries()[i].v == old(ko.Entries()[i].v)
    ensures ko.Conds() == old(ko.Conds())
  {
    ValuesKept(ko.Entries());
  }

  twostate lemma ValuesKept(cs: seq<Condition>)
    requires forall i :: 0 <= i < |cs| ==> cs[i].v == old(cs[i].v)
    ensures CondValues(cs) == old(CondValues(cs))
  {
  }

  class ResourceManager {
    const awsAccountID: string
    const awsRegion: string
    const awsPartition: string
    const sdkapi: GlueClient

    constructor (id: Identity, sdkapi: GlueClient)
      ensures this.sdkapi == sdkapi && Id() == id
    {
      awsAccountID, awsRegion, awsPartition := id.account, id.region, id.partition;
      this.sdkapi := sdkapi;
    }

    function Id(): Identity {
      Identity(awsPartition, awsRegion, awsAccountID)
    }
  }

  // ---------- setStatusDefaults ----------

  function Defaulted(id: Identity, md: Option<ResourceMetadata>): (r: ResourceMetadata)
    ensures r.region.Some? && r.partition.Some? && r.ownerAccountID.Some?
  {
    var m := md.GetOr(ResourceMetadata(None, None, None, None));
    ResourceMetadata(
      m.arn,
      Some(m.ownerAccountID.GetOr(id.account)),
      Some(m.region.GetOr(id.region)),
      Some(m.partition.GetOr(id.partition)))
  }

  method SetStatusDefaults(rm: ResourceManager, ko: Database)
    modifies ko`metadata, ko`conditions
    ensures ko.metadata == Some(Defaulted(rm.Id(), old(ko.metadata)))
    ensures ko.conditions == Some(old(ko.Entries()))
    ensures ko.Entries() == old(ko.Entries()) && ko.Conds() == old(ko.Conds())
  {
    if ko.metadata.None? {
      ko.metadata := Some(ResourceMetadata(None, None, None, None));
    }
    if ko.metadata.value.region.None? {
      ko.metadata := Some(ko.metadata.value.(region := Some(rm.awsRegion)));
    }
    if ko.metadata.value.partition.None? {
      ko.metadata := Some(ko.metadata.value.(partition := Some(rm.awsPartition)));
    }
    if ko.metadata.value.ownerAccountID.None? {
      ko.metadata := Some(ko.metadata.value.(ownerAccountID := Some(rm.awsAccountID)));
    }
    if ko.conditions.None? {
      ko.conditions := Some([]);
    }
  }

  // ---------- updateConditions, onError, onSuccess ----------

  /** Overwrites the entry at index i of the list through its pointer. */
  method SetEntry(cs: seq<Condition>, ghost i: int, c: Condition, s: ConditionStatus, m: Option<Message>)
    requires Distinct(cs) && 0 <= i < |cs| && cs[i] == c
    modifies c
    ensures CondValues(cs) == old(CondValues(cs))[i := Cond(old(c.v).ctype, s, m)]
  {
    c.v := c.v.(status := s);
    c.v := c.v.(message := m);
    assert forall j | 0 <= j < |cs| && j != i :: cs[j] != c;
  }

  /** The entry the scanning loop ends with for type t, nil if there is none. */
  ghost function Found(cs: seq<Condition>, t: ConditionType): Condition?
    reads cs
  {
    var i := LastOf(CondValues(cs), t);
    if i == -1 then null else cs[i]
  }

  lemma FoundStep(cs: seq<Condition>, i: nat, t: ConditionType)
    requires i < |cs|
    ensures Found(cs[..i + 1], t) == if cs[i].v.ctype == t then cs[i] else Found(cs[..i], t)
  {
    assert CondValues(cs[..i + 1])[..i] == CondValues(cs[..i]);
  }

  method FindEntries(cs: seq<Condition>) returns (terminal: Condition?, recoverable: Condition?, synced: Condition?)
    ensures terminal == Found(cs, TypeTerminal)
    ensures recoverable == Found(cs, TypeRecoverable)
    ensures synced == Found(cs, TypeResourceSynced)
  {
    terminal, recoverable, synced := null, null, null;
    for i := 0 to |cs|
      invariant terminal == Found(cs[..i], TypeTerminal)
      invariant recoverable == Found(cs[..i], TypeRecoverable)
      invariant synced == Found(cs[..i], TypeResourceSynced)
    {
      FoundStep(cs, i, TypeTerminal);
      FoundStep(cs, i, TypeRecoverable);
      FoundStep(cs, i, TypeResourceSynced);
      var condition := cs[i];
      if condition.v.ctype == TypeTerminal {
        terminal := condition;
      }
      if condition.v.ctype == TypeRecoverable {
        recoverable := condition;
      }
      if condition.v.ctype == TypeResourceSynced {
        synced := condition;
      }
    }
    assert cs[..|cs|] == cs;
  }

  /** Sets the entry found for type t, appending a new one if there was none. */
  method PutEntry(cs: seq<Condition>, found: Condition?, t: ConditionType, s: ConditionStatus, m: Option<Message>)
    returns (list: seq<Condition>)
    requires Distinct(cs) && found == Found(cs, t)
    modifies cs
    ensures Distinct(list) && forall i :: 0 <= i < |list| ==> list[i] in cs || fresh(list[i])
    ensures CondValues(list) == Put(old(CondValues(cs)), t, s, m)
  {
    ghost var was := CondValues(cs);
    ghost var i := LastOf(was, t);
    var c := found;
    list := cs;
    if c == null {
      c := new Condition(Cond(t, ConditionUnknown, None));
      i := |cs|;
      list := cs + [c];
      assert forall j | 0 <= j < i :: CondValues(list)[j] == was[j];
      assert CondValues(list) == was + [Cond(t, ConditionUnknown, None)];
    }
    SetEntry(list, i, c, s, m);
  }

  /** The branch for an outcome that is not of the terminal class. */
  method EditNonTerminal(cs: seq<Condition>, terminal: Condition?, recoverable: Condition?, err: Outcome)
    returns (list: seq<Condition>)
    requires Distinct(cs) && !IsTerminalClass(err)
    requires terminal == Found(cs, TypeTerminal) && recoverable == Found(cs, TypeRecoverable)
    modifies cs
    ensures Distinct(list) && forall i :: 0 <= i < |list| ==> list[i] in cs || fresh(list[i])
    ensures CondValues(list) == Updated(old(CondValues(cs)), err)
  {
    ghost var was := CondValues(cs);
    list := cs;
    if terminal != null {
      PutTouches(was, TypeTerminal, ConditionFalse, None);
      SetEntry(list, LastOf(was, TypeTerminal), terminal, ConditionFalse, None);
    }
    ghost var cleared := CondValues(list);
    assert cleared == Clear(was, TypeTerminal);
    assert recoverable == Found(list, TypeRecoverable);
    if err.Some? {
      list := PutEntry(list, recoverable, TypeRecoverable, ConditionTrue, Some(FromError(err.value)));
    } else if recoverable != null {
      SetEntry(list, LastOf(cleared, TypeRecoverable), recoverable, ConditionFalse, None);
    }
  }

  /** The edits of `updateConditions`, made in place on the entries of its copy. */
  method EditConditions(cs: seq<Condition>, err: Outcome) returns (list: seq<Condition>, changed: bool)
    requires Distinct(cs)
    modifies cs
    ensures Distinct(list) && forall i :: 0 <= i < |list| ==> list[i] in cs || fresh(list[i])
    ensures CondValues(list) == Updated(old(CondValues(cs)), err)
    ensures changed <==> ReportsUpdate(old(CondValues(cs)), err)
  {
    var terminal, recoverable, synced := FindEntries(cs);
    if IsTerminalClass(err) {
      list := PutEntry(cs, terminal, TypeTerminal, ConditionTrue, Some(FromError(err.value)));
      return list, true;
    }
    list := EditNonTerminal(cs, terminal, recoverable, err);
    changed := err.Some? || terminal != null || recoverable != null || synced != null;
  }

  /** `updateConditions`: the result is a copy of r, or nothing when no entry is concerned. */
  method UpdateConditions(rm: ResourceManager, r: Database, err: Outcome) returns (updated: Database?, changed: bool)
    ensures changed <==> ReportsUpdate(old(r.Conds()), err)
    ensures changed <==> updated != null
    ensures updated != null ==>
              && fresh(updated) && fresh(updated.Entries()) && Distinct(updated.Entries())
              && updated.spec == r.spec && updated.metadata == Some(Defaulted(rm.Id(), r.metadata))
              && updated.Conds() == Updated(old(r.Conds()), err)
  {
    ghost var was := r.Conds();
    var ko := r.DeepCopy();
    var entries := ko.Entries();
    SetStatusDefaults(rm, ko);
    assert CondValues(entries) == was;
    var list;
    list, changed := EditConditions(entries, err);
    label edited:
    ko.conditions := Some(list);
    ValuesKept@edited(list);
    updated := if changed then ko else null;
  }

  /** A scan for an entry of type t that is True, over every entry. */
  method AnyTrueEntry(cs: seq<Condition>, t: ConditionType) returns (b: bool)
    ensures b == AnyTrue(CondValues(cs), t)
  {
    for i := 0 to |cs|
      invariant forall j :: 0 <= j < i ==> !(cs[j].v.ctype == t && cs[j].v.status == ConditionTrue)
    {
      if cs[i].v.ctype == t && cs[i].v.status == ConditionTrue {
        assert CondValues(cs)[i] == cs[i].v;
        return true;
      }
    }
    return false;
  }

  /** The error to hand back for an updated resource. */
  method ErrorOf(r1: Database, err: Error, ghost was: seq<Cond>) returns (out: Error)
    requires r1.Conds() == Updated(was, Some(err))
    ensures out == ErrorAfter(was, err)
    ensures r1.Conds() == old(r1.Conds())
  {
    ErrorFromScan(was, err);
    var terminal := AnyTrueEntry(r1.Entries(), TypeTerminal);
    out := if terminal then Terminal else err;
  }

  method OnError(rm: ResourceManager, r: Database?, err: Error) returns (res: Database?, out: Error)
    ensures r == null ==> res == null && out == err
    ensures r != null ==>
              && res != null && fresh(res) && fresh(res.Entries())
              && res.spec == r.spec && res.metadata == Some(Defaulted(rm.Id(), r.metadata))
              && res.Conds() == Updated(old(r.Conds()), Some(err))
              && out == ErrorAfter(old(r.Conds()), err)
  {
    if r == null {
      return null, err;
    }
    ghost var was := r.Conds();
    var r1, updated := UpdateConditions(rm, r, Some(err));
    if !updated {
      return r, err;
    }
    out := ErrorOf(r1, err, was);
    res := r1;
  }

  method OnSuccess(rm: ResourceManager, r: Database?) returns (res: Database?)
    ensures r == null ==> res == null
    ensures r != null ==>
              && res != null
              && (res == r || (fresh(res) && fresh(res.Entries())))
              && (res == r <==> !ReportsUpdate(old(r.Conds()), None))
              && res.spec == r.spec
              && res.metadata == (if res == r then r.metadata else Some(Defaulted(rm.Id(), r.metadata)))
              && res.Conds() == Updated(old(r.Conds()), None)
  {
    if r == null {
      return null;
    }
    UpdatedStep(r.Conds(), None);
    var r1, updated := UpdateConditions(rm, r, None);
    if !updated {
      return r;
    }
    return r1;
  }
}
