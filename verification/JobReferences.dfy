/** pkg/resource/job/references.go: filling in a Job's Role from the IAM Role resource its RoleRef
    names, and taking it out again. */
module JobReferences {
  import opened Types
  import opened Conditions

  datatype ResourceReference = ResourceReference(name: Option<string>, namespace: Option<string>)

  /** `AWSResourceReferenceWrapper`. */
  datatype ReferenceWrapper = ReferenceWrapper(from: Option<ResourceReference>)

  /** A JobSpec; `rest` stands for the fields no reference touches. */
  datatype JobSpec<T> = JobSpec(role: Option<string>, roleRef: Option<ReferenceWrapper>, rest: T)

  class Job<T> {
    var namespace: string
    var spec: JobSpec<T>

    constructor (namespace: string, spec: JobSpec<T>)
      ensures this.namespace == namespace && this.spec == spec
    {
      this.namespace, this.spec := namespace, spec;
    }
  }

  // ---------- the referenced role ----------

  datatype NamespacedName = NamespacedName(namespace: string, name: string)

  /** The parts of an IAM Role's status that are read. */
  datatype RoleStatus = RoleStatus(conditions: seq<Cond>, metadata: Option<ResourceMetadata>)

  /** The API reader: for each name, the role found or the error met. */
  type Reader = NamespacedName -> Result<RoleStatus>

  const EMPTY_REFERENCE := Other("provided resource reference is nil or empty")
  const CROSS_NAMESPACE := Other("cross-namespace reference")
  const REFERENCE_TERMINAL := Other("referenced resource terminal")
  const REFERENCE_NOT_SYNCED := Other("referenced resource not synced")
  const MISSING_TARGET := Other("referenced resource misses the target field")
  const REFERENCE_AND_ID := Other("reference and identifier both set")
  const REFERENCE_OR_ID := Other("reference or identifier required")

  predicate Usable(role: RoleStatus) {
    && !AnyTrue(role.conditions, TypeTerminal)
    && AnyTrue(role.conditions, TypeResourceSynced)
    && role.metadata.Some? && role.metadata.value.arn.Some?
  }

  /** Whether a fetched role may be used, and why not. */
  function Verdict(role: RoleStatus): (err: Option<Error>)
    ensures err.None? <==> Usable(role)
  {
    if AnyTrue(role.conditions, TypeTerminal) then Some(REFERENCE_TERMINAL)
    else if !AnyTrue(role.conditions, TypeResourceSynced) then Some(REFERENCE_NOT_SYNCED)
    else if role.metadata.None? || role.metadata.value.arn.None? then Some(MISSING_TARGET)
    else None
  }

  /** `getReferencedResourceState_Role`, with the role it reads into its argument as a result. */
  method GetReferencedResourceState(reader: Reader, at: NamespacedName) returns (role: RoleStatus, err: Option<Error>)
    ensures err == match reader(at) case Err(e) => Some(e) case Ok(r) => Verdict(r)
    ensures err.None? ==> reader(at) == Ok(role) && Usable(role)
  {
    var answer := reader(at);
    if answer.Err? {
      return RoleStatus([], None), Some(answer.error);
    }
    role := answer.value;
    var refResourceTerminal := false;
    for i := 0 to |role.conditions|
      invariant !refResourceTerminal
      invariant forall j :: 0 <= j < i ==>
                  !(role.conditions[j].ctype == TypeTerminal && role.conditions[j].status == ConditionTrue)
    {
      if role.conditions[i].ctype == TypeTerminal && role.conditions[i].status == ConditionTrue {
        return role, Some(REFERENCE_TERMINAL);
      }
    }
    if refResourceTerminal {
      return role, Some(REFERENCE_TERMINAL);
    }
    var refResourceSynced := false;
    for i := 0 to |role.conditions|
      invariant refResourceSynced <==>
                exists j :: && 0 <= j < i && role.conditions[j].ctype == TypeResourceSynced
                            && role.conditions[j].status == ConditionTrue
    {
      if role.conditions[i].ctype == TypeResourceSynced && role.conditions[i].status == ConditionTrue {
        refResourceSynced := true;
      }
    }
    if !refResourceSynced {
      return role, Some(REFERENCE_NOT_SYNCED);
    }
    if role.metadata.None? || role.metadata.value.arn.None? {
      return role, Some(MISSING_TARGET);
    }
    err := None;
  }

  /** `ValidateCrossNamespaceReference` of the runtime: an empty namespace is the resource's own. */
  function TargetNamespace(enableCross: bool, own: string, asked: Option<string>): Result<string> {
    if asked.GetOr("") == "" || asked.value == own then Ok(own)
    else if enableCross then Ok(asked.value)
    else Err(CROSS_NAMESPACE)
  }

  // ---------- resolving ----------

  predicate HasReference<T>(spec: JobSpec<T>) {
    spec.roleRef.Some? && spec.roleRef.value.from.Some?
  }

  /** What following the reference yields: the ARN of a usable role, or an error. */
  function Lookup<T>(enableCross: bool, reader: Reader, namespace: string, spec: JobSpec<T>): Result<string>
    requires HasReference(spec)
  {
    var arr := spec.roleRef.value.from.value;
    if arr.name.GetOr("") == "" then Err(EMPTY_REFERENCE)
    else
      match TargetNamespace(enableCross, namespace, arr.namespace)
      case Err(e) => Err(e)
      case Ok(ns) =>
        match reader(NamespacedName(ns, arr.name.value))
        case Err(e) => Err(e)
        case Ok(role) => if Usable(role) then Ok(role.metadata.value.arn.value) else Err(Verdict(role).value)
  }

  function Validation<T>(spec: JobSpec<T>): Option<Error> {
    if spec.roleRef.Some? && spec.role.Some? then Some(REFERENCE_AND_ID)
    else if spec.roleRef.None? && spec.role.None? then Some(REFERENCE_OR_ID)
    else None
  }

  /** The spec after resolving: Role is the only field that can change. */
  function Resolved<T>(enableCross: bool, reader: Reader, namespace: string, spec: JobSpec<T>): JobSpec<T> {
    if HasReference(spec) && Lookup(enableCross, reader, namespace, spec).Ok?
    then spec.(role := Some(Lookup(enableCross, reader, namespace, spec).value))
    else spec
  }

  function ResolutionError<T>(enableCross: bool, reader: Reader, namespace: string, spec: JobSpec<T>): Option<Error> {
    if HasReference(spec) && Lookup(enableCross, reader, namespace, spec).Err?
    then Some(Lookup(enableCross, reader, namespace, spec).error)
    else Validation(spec)
  }

  method ResolveReferenceForRole<T>(enableCross: bool, reader: Reader, ko: Job<T>)
    returns (hasReferences: bool, err: Option<Error>)
    modifies ko`spec
    ensures hasReferences == HasReference(old(ko.spec))
    ensures ko.spec == Resolved(enableCross, reader, ko.namespace, old(ko.spec))
    ensures err == if hasReferences && Lookup(enableCross, reader, ko.namespace, old(ko.spec)).Err?
                   then Some(Lookup(enableCross, reader, ko.namespace, old(ko.spec)).error) else None
  {
    hasReferences := false;
    if ko.spec.roleRef.Some? && ko.spec.roleRef.value.from.Some? {
      hasReferences := true;
      var arr := ko.spec.roleRef.value.from.value;
      if arr.name.None? || arr.name.value == "" {
        return hasReferences, Some(EMPTY_REFERENCE);
      }
      var target := TargetNamespace(enableCross, ko.namespace, arr.namespace);
      if target.Err? {
        return hasReferences, Some(target.error);
      }
      var role, e := GetReferencedResourceState(reader, NamespacedName(target.value, arr.name.value));
      if e.Some? {
        return hasReferences, e;
      }
      ko.spec := ko.spec.(role := role.metadata.value.arn);
    }
    err := None;
  }

  /** Works on the caller's own object, not on a copy. */
  method ResolveReferences<T>(enableCross: bool, reader: Reader, ko: Job<T>)
    returns (res: Job<T>, hasReferences: bool, err: Option<Error>)
    modifies ko`spec
    ensures res == ko
    ensures ko.spec == Resolved(enableCross, reader, ko.namespace, old(ko.spec))
    ensures hasReferences <==> ko.spec.roleRef.Some? && ko.spec.roleRef.value.from.Some?
    ensures err == ResolutionError(enableCross, reader, ko.namespace, old(ko.spec))
  {
    var invalid := None;
    if ko.spec.roleRef.Some? && ko.spec.role.Some? {
      invalid := Some(REFERENCE_AND_ID);
    } else if ko.spec.roleRef.None? && ko.spec.role.None? {
      invalid := Some(REFERENCE_OR_ID);
    }
    var fieldHasReferences, e := ResolveReferenceForRole(enableCross, reader, ko);
    if e.Some? {
      return ko, fieldHasReferences, e;
    }
    return ko, fieldHasReferences, invalid;
  }

  function Cleared<T>(spec: JobSpec<T>): JobSpec<T> {
    if spec.roleRef.Some? then spec.(role := None) else spec
  }

  /** Works on a copy. */
  method ClearResolvedReferences<T>(res: Job<T>) returns (out: Job<T>)
    ensures fresh(out) && out.namespace == res.namespace && out.spec == Cleared(res.spec)
  {
    out := new Job(res.namespace, res.spec);
    if out.spec.roleRef.Some? {
      out.spec := out.spec.(role := None);
    }
  }

  // ---------- properties ----------

  predicate BothSet<T>(spec: JobSpec<T>) {
    spec.role.Some? && spec.roleRef.Some?
  }

  /** Clearing after resolving restores the spec, whatever the lookup said, exactly for the jobs that
      did not have both fields set. */
  lemma ClearUndoesResolve<T>(enableCross: bool, reader: Reader, namespace: string, spec: JobSpec<T>)
    ensures Cleared(Resolved(enableCross, reader, namespace, spec)) == spec <==> !BothSet(spec)
  {
    var r := Resolved(enableCross, reader, namespace, spec);
    assert r.roleRef == spec.roleRef && r.rest == spec.rest;
  }

  /** Under a stable lookup, resolving what was cleared gives what the first resolution gave, unless
      both fields were set and the lookup yields nothing to put in place of the cleared Role. */
  lemma ResolveClearResolve<T>(enableCross: bool, reader: Reader, namespace: string, spec: JobSpec<T>)
    ensures var once := Resolved(enableCross, reader, namespace, spec);
            var again := Resolved(enableCross, reader, namespace, Cleared(once));
            again == once <==>
              !BothSet(spec) || (HasReference(spec) && Lookup(enableCross, reader, namespace, spec).Ok?)
  {
    if !BothSet(spec) {
      ClearUndoesResolve(enableCross, reader, namespace, spec);
    } else {
      var once := Resolved(enableCross, reader, namespace, spec);
      assert Cleared(once).roleRef == spec.roleRef;
      assert HasReference(spec) ==>
          Lookup(enableCross, reader, namespace, Cleared(once)) == Lookup(enableCross, reader, namespace, spec);
    }
  }

  /** The role the reference leads to: the one of that name in the namespace the reference may reach. */
  ghost predicate LeadsTo<T>(enableCross: bool, reader: Reader, namespace: string, spec: JobSpec<T>, role: RoleStatus)
    requires HasReference(spec)
  {
    var arr := spec.roleRef.value.from.value;
    && arr.name.GetOr("") != ""
    && TargetNamespace(enableCross, namespace, arr.namespace).Ok?
    && reader(NamespacedName(TargetNamespace(enableCross, namespace, arr.namespace).value, arr.name.value)) == Ok(role)
  }

  /** An empty namespace means the job's own; another is reached only if that is enabled. */
  lemma NamespaceReached(enableCross: bool, own: string, asked: Option<string>)
    ensures var ns := TargetNamespace(enableCross, own, asked);
            && (ns.Ok? <==> asked.None? || asked.value == "" || asked.value == own || enableCross)
            && (ns.Ok? ==> ns.value == (if asked.None? || asked.value == "" then own else asked.value))
  {
  }

  /** Resolving changes nothing but Role. It sets Role exactly when the reference leads to a usable role (no
      True Terminal entry, some True ResourceSynced entry, an ARN), and then to that role's ARN; so a call
      without an error on a spec with a reference ends with a Role. */
  lemma ResolvedRoleIsUsable<T>(enableCross: bool, reader: Reader, namespace: string, spec: JobSpec<T>)
    requires HasReference(spec)
    ensures var r := Resolved(enableCross, reader, namespace, spec);
            var err := ResolutionError(enableCross, reader, namespace, spec);
            && r == spec.(role := r.role)
            && (forall role :: LeadsTo(enableCross, reader, namespace, spec, role) ==>
                  if Usable(role)
                  then && r.role.Some? && r.role == role.metadata.value.arn
                       && err == (if spec.role.Some? then Some(REFERENCE_AND_ID) else None)
                  else r == spec && err.Some?)
            && ((exists role :: LeadsTo(enableCross, reader, namespace, spec, role) && Usable(role)) ||
                (r == spec && err.Some?))
            && (err.None? ==>
                  exists role :: LeadsTo(enableCross, reader, namespace, spec, role) && Usable(role)
                                 && r.role.Some? && r.role == role.metadata.value.arn)
  {
    if Lookup(enableCross, reader, namespace, spec).Ok? {
      var arr := spec.roleRef.value.from.value;
      var ns := TargetNamespace(enableCross, namespace, arr.namespace).value;
      var role := reader(NamespacedName(ns, arr.name.value)).value;
      assert LeadsTo(enableCross, reader, namespace, spec, role) && Usable(role);
    }
  }

  /** A spec that refers to nothing is left as it is. A RoleRef without From passes with no error and no Role. */
  lemma NothingToResolve<T>(enableCross: bool, reader: Reader, namespace: string, spec: JobSpec<T>)
    requires spec.roleRef.None? || spec.roleRef.value.from.None?
    ensures Resolved(enableCross, reader, namespace, spec) == spec
    ensures ResolutionError(enableCross, reader, namespace, spec) ==
            (if spec.role.Some? && spec.roleRef.Some? then Some(REFERENCE_AND_ID)
             else if spec.role.None? && spec.roleRef.None? then Some(REFERENCE_OR_ID)
             else None)
  {
  }

  /** A reference without a name, or to a namespace out of reach, or that the reader cannot follow, or to a role
      that is not usable: each has its error, the first that applies, and leaves the spec as it is. */
  lemma FailedLookups<T>(enableCross: bool, reader: Reader, own: string, spec: JobSpec<T>)
    requires spec.roleRef.Some? && spec.roleRef.value.from.Some?
    ensures var arr := spec.roleRef.value.from.value;
            var (name, asked) := (arr.name.GetOr(""), arr.namespace.GetOr(""));
            var r := Resolved(enableCross, reader, own, spec);
            var err := ResolutionError(enableCross, reader, own, spec);
            if name == "" then r == spec && err == Some(EMPTY_REFERENCE)
            else if asked != "" && asked != own && !enableCross then r == spec && err == Some(CROSS_NAMESPACE)
            else
              match reader(NamespacedName(if asked == "" then own else asked, name))
              case Err(e) => r == spec && err == Some(e)
              case Ok(role) => !Usable(role) ==> r == spec && err == Some(Objection(role))
  {
    var arr := spec.roleRef.value.from.value;
    NamespaceReached(enableCross, own, arr.namespace);
    if arr.name.GetOr("") != "" && TargetNamespace(enableCross, own, arr.namespace).Ok? {
      var answer := reader(NamespacedName(TargetNamespace(enableCross, own, arr.namespace).value, arr.name.value));
      if answer.Ok? && !Usable(answer.value) {
        VerdictSays(answer.value);
      }
    }
  }

  predicate SomeEntry(role: RoleStatus, t: ConditionType) {
    exists i :: && 0 <= i < |role.conditions|
                && role.conditions[i].ctype == t && role.conditions[i].status == ConditionTrue
  }

  /** What is said against a role that is not usable. */
  function Objection(role: RoleStatus): Error {
    if SomeEntry(role, TypeTerminal) then REFERENCE_TERMINAL
    else if !SomeEntry(role, TypeResourceSynced) then REFERENCE_NOT_SYNCED
    else MISSING_TARGET
  }

  /** Usable is: no Terminal entry True, some ResourceSynced entry True, an ARN. */
  lemma VerdictSays(role: RoleStatus)
    ensures Usable(role) <==>
            && !SomeEntry(role, TypeTerminal) && SomeEntry(role, TypeResourceSynced)
            && role.metadata.Some? && role.metadata.value.arn.Some?
    ensures Verdict(role) == if Usable(role) then None else Some(Objection(role))
  {
  }
}
