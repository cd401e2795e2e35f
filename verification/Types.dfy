/** The Kubernetes and AWS shapes the Database controller moves data between.
    A Go pointer to a value is an `Option`: `None` is nil. Go structs held by value
    are datatypes; the objects the controller updates in place are classes, in
    their own modules. */
module Types {

  datatype Option<+T> = None | Some(value: T) {
    function GetOr(default: T): T {
      match this
      case Some(v) => v
      case None => default
    }
  }

  datatype Result<+T> = Ok(value: T) | Err(error: Error)

  /** Go's `map[string]*string`. */
  type StringMap = map<string, Option<string>>

  // ---------- apis/v1alpha1 ----------

  datatype DataLakePrincipal = DataLakePrincipal(identifier: Option<string>)

  datatype PrincipalPermissions = PrincipalPermissions(
    permissions: Option<seq<Option<string>>>, principal: Option<DataLakePrincipal>)

  datatype FederatedDatabase = FederatedDatabase(
    connectionName: Option<string>, identifier: Option<string>)

  datatype DatabaseIdentifier = DatabaseIdentifier(
    catalogID: Option<string>, databaseName: Option<string>, region: Option<string>)

  datatype DatabaseSpec = DatabaseSpec(
    catalogID: Option<string>,
    description: Option<string>,
    federatedDatabase: Option<FederatedDatabase>,
    locationURI: Option<string>,
    name: Option<string>,
    parameters: Option<StringMap>,
    tableDefaultPermissions: Option<seq<Option<PrincipalPermissions>>>,
    tags: Option<StringMap>,
    targetDatabase: Option<DatabaseIdentifier>)

  datatype ResourceMetadata = ResourceMetadata(
    arn: Option<string>, ownerAccountID: Option<string>, region: Option<string>, partition: Option<string>)

  // ---------- aws-sdk-go-v2/service/glue/types ----------

  datatype SdkPrincipalPermissions = SdkPrincipalPermissions(
    permissions: Option<seq<string>>, principal: Option<DataLakePrincipal>)

  datatype DatabaseInput = DatabaseInput(
    createTableDefaultPermissions: Option<seq<SdkPrincipalPermissions>>,
    description: Option<string>,
    federatedDatabase: Option<FederatedDatabase>,
    locationUri: Option<string>,
    name: Option<string>,
    parameters: Option<map<string, string>>,
    targetDatabase: Option<DatabaseIdentifier>)

  /** The `Database` of a GetDatabase response. */
  datatype SdkDatabase = SdkDatabase(catalogId: Option<string>, input: DatabaseInput)

  // ---------- errors ----------

  /** Go error values, up to message text. `Wrapped` is any error that `errors.As` unwraps. */
  datatype Error =
    | NotFound
    | Terminal
    | SecretTypeNotSupported
    | SecretNotFound
    | TerminalError(inner: Error)
    | ApiError(code: string)
    | Wrapped(inner: Error)
    | Other(text: string)
  {
    /** `errors.As(err, &smithy.APIError)` followed by `ErrorCode()`: the first API error of the chain. */
    function ApiCode(): Option<string> {
      match this
      case ApiError(code) => Some(code)
      case TerminalError(inner) => inner.ApiCode()
      case Wrapped(inner) => inner.ApiCode()
      case _ => None
    }

    /** `errors.As(err, &ackerr.TerminalError)`. */
    predicate HasTerminalError() {
      match this
      case TerminalError(_) => true
      case Wrapped(inner) => inner.HasTerminalError()
      case _ => false
    }
  }

  /** A leaf inside layers of wrapping, outermost first: `true` is a TerminalError, `false` any other wrapper. */
  function Chain(layers: seq<bool>, leaf: Error): Error {
    if |layers| == 0 then leaf
    else if layers[0] then TerminalError(Chain(layers[1..], leaf))
    else Wrapped(Chain(layers[1..], leaf))
  }

  predicate IsLeaf(e: Error) {
    !e.TerminalError? && !e.Wrapped?
  }

  lemma {:induction false} EveryErrorIsAChain(e: Error) returns (layers: seq<bool>, leaf: Error)
    ensures IsLeaf(leaf) && e == Chain(layers, leaf)
  {
    match e
    case TerminalError(inner) =>
      var below, end := EveryErrorIsAChain(inner);
      layers, leaf := [true] + below, end;
      assert layers[1..] == below;
    case Wrapped(inner) =>
      var below, end := EveryErrorIsAChain(inner);
      layers, leaf := [false] + below, end;
      assert layers[1..] == below;
    case _ =>
      layers, leaf := [], e;
  }

  /** An error has a code exactly when there is an API error at the end of its chain; it is of the
      TerminalError kind exactly when one of its layers is. */
  lemma {:induction false} ChainsUnwrap(layers: seq<bool>, leaf: Error)
    requires IsLeaf(leaf)
    ensures Chain(layers, leaf).ApiCode() == if leaf.ApiError? then Some(leaf.code) else None
    ensures Chain(layers, leaf).HasTerminalError() <==> true in layers
  {
    if |layers| > 0 {
      ChainsUnwrap(layers[1..], leaf);
    }
  }

  /** The string behind every non-nil pointer; nil reads as the empty string. */
  function PlainMap(m: StringMap): (r: map<string, string>)
    ensures r.Keys == m.Keys
  {
    map k | k in m :: m[k].GetOr("")
  }

  /** A pointer to each value. */
  function PointerMap(m: map<string, string>): (r: StringMap)
    ensures r.Keys == m.Keys
  {
    map k | k in m :: Some(m[k])
  }

  predicate NoNilValues(m: StringMap) {
    forall k | k in m :: m[k].Some?
  }

  /** Going to strings and back restores a pointer map exactly when no value was nil. */
  lemma PlainThenPointer(m: StringMap)
    ensures PointerMap(PlainMap(m)) == m <==> NoNilValues(m)
  {
    if NoNilValues(m) {
      assert forall k | k in m :: PointerMap(PlainMap(m))[k] == m[k];
    }
    if PointerMap(PlainMap(m)) == m {
      assert forall k | k in m :: PointerMap(PlainMap(m))[k].Some?;
    }
  }

  lemma PointerThenPlain(m: map<string, string>)
    ensures PlainMap(PointerMap(m)) == m
  {
    assert forall k | k in m :: PlainMap(PointerMap(m))[k] == m[k];
  }
}
