/** The AWS side. The store keeps one `DatabaseInput` per (catalog, name) and one tag map per
    ARN. Each call takes one tick of the clock; at each tick the fault schedule of the
    environment either lets the call through or makes it fail without effect. Every call
    that could change the store is logged with the tags its resource had when it arrived.
    The service is foreign code: what it does is an assumption of this model. */
module Glue {
  import opened Types
  import opened Tags
  import opened Identifiers

  datatype Identity = Identity(partition: string, region: string, account: string)

  datatype Env = Env(
    home: Identity,
    defaultPermissions: seq<SdkPrincipalPermissions>,
    faults: nat -> Option<Error>)

  datatype Key = Key(catalog: string, name: string)

  datatype Call =
    | CreateCall(key: Key, tags: Plain)
    | UpdateCall(key: Key)
    | UntagCall(arn: string, keys: set<string>)
    | TagCall(arn: string, tags: Plain)

  datatype Attempt = Attempt(call: Call, before: Plain, succeeded: bool)

  datatype World = World(
    databases: map<Key, DatabaseInput>,
    tags: map<string, Plain>,
    clock: nat,
    log: seq<Attempt>)

  // ---------- names ----------

  function FoldChar(c: char): char {
    if 'A' <= c <= 'Z' then c - 'A' + 'a' else c
  }

  /** The lower-case form names are stored under (apis/v1alpha1/database.go:45-46), on ASCII letters. */
  function Fold(s: string): string {
    seq(|s|, i requires 0 <= i < |s| => FoldChar(s[i]))
  }

  /** A database's own ARN. */
  function ArnOf(env: Env, name: string): string {
    DatabaseARN(env.home.partition, env.home.region, env.home.account, name)
  }

  /** The catalog defaults to the caller's account. */
  function KeyOf(env: Env, catalog: Option<string>, name: string): Key {
    Key(catalog.GetOr(env.home.account), Fold(name))
  }

  // ---------- what the service stores and answers ----------

  /** The stored form of an input: the name is folded, absent permissions take the default. */
  function Stored(env: Env, key: Key, input: DatabaseInput): DatabaseInput {
    input.(name := Some(key.name),
           createTableDefaultPermissions := Some(input.createTableDefaultPermissions.GetOr(env.defaultPermissions)))
  }

  /** On a resource link GetDatabase answers "" for an absent description or location
      (pkg/resource/database/delta_test.go:48). */
  function Response(key: Key, stored: DatabaseInput): SdkDatabase {
    SdkDatabase(
      Some(key.catalog),
      if stored.targetDatabase.Some? then
        stored.(description := Some(stored.description.GetOr("")), locationUri := Some(stored.locationUri.GetOr("")))
      else stored)
  }

  /** Every database is stored under its own name, with its permissions and a tag map. */
  ghost predicate Faithful(env: Env, w: World) {
    forall k | k in w.databases ::
      && w.databases[k].name == Some(k.name)
      && w.databases[k].createTableDefaultPermissions.Some?
      && ArnOf(env, k.name) in w.tags
  }

  /** No fault strikes from tick `from` until before tick `to`. */
  ghost predicate Calm(env: Env, from: nat, to: nat) {
    forall t: nat :: from <= t < to ==> env.faults(t).None?
  }

  predicate TouchesAWS(keys: set<string>) {
    exists k | k in keys :: IsAWS(k)
  }

  function Tick(w: World): World {
    w.(clock := w.clock + 1)
  }

  function Logged(w: World, call: Call, before: Plain, succeeded: bool): World {
    w.(log := w.log + [Attempt(call, before, succeeded)])
  }

  // ---------- the API ----------

  function ServeGetDatabase(env: Env, w: World, catalog: Option<string>, name: Option<string>):
    (World, Result<SdkDatabase>)
  {
    var w1 := Tick(w);
    if env.faults(w.clock).Some? then (w1, Err(env.faults(w.clock).value))
    else if name.None? then (w1, Err(ApiError("InvalidInputException")))
    else
      var k := KeyOf(env, catalog, name.value);
      if k in w.databases then (w1, Ok(Response(k, w.databases[k])))
      else (w1, Err(ApiError("EntityNotFoundException")))
  }

  function ServeGetTags(env: Env, w: World, arn: string): (World, Result<Plain>) {
    var w1 := Tick(w);
    if env.faults(w.clock).Some? then (w1, Err(env.faults(w.clock).value))
    else if arn !in w.tags then (w1, Err(ApiError("EntityNotFoundException")))
    else (w1, Ok(w.tags[arn]))
  }

  /** Why the service refuses a call, injected faults first. */
  function Refusal(env: Env, w: World, ownReason: Option<Error>): Option<Error> {
    if env.faults(w.clock).Some? then env.faults(w.clock) else ownReason
  }

  function CreateRefusal(env: Env, w: World, catalog: Option<string>, input: DatabaseInput, tags: Plain):
    Option<Error>
  {
    if input.name.None? || TouchesAWS(tags.Keys) then Some(ApiError("InvalidInputException"))
    else if KeyOf(env, catalog, input.name.value) in w.databases then Some(ApiError("AlreadyExistsException"))
    else None
  }

  function ServeCreateDatabase(env: Env, w: World, catalog: Option<string>, input: DatabaseInput, tags: Plain):
    (World, Option<Error>)
  {
    var err := Refusal(env, w, CreateRefusal(env, w, catalog, input, tags));
    var k := KeyOf(env, catalog, input.name.GetOr(""));
    var w1 := Logged(Tick(w), CreateCall(k, tags), map[], err.None?);
    if err.Some? then (w1, err)
    else (w1.(databases := w.databases[k := Stored(env, k, input)],
              tags := w.tags[ArnOf(env, k.name) := tags]), None)
  }

  function UpdateRefusal(env: Env, w: World, catalog: Option<string>, name: Option<string>): Option<Error> {
    if name.None? then Some(ApiError("InvalidInputException"))
    else if KeyOf(env, catalog, name.value) !in w.databases then Some(ApiError("EntityNotFoundException"))
    else None
  }

  /** The new input replaces the stored one as a whole. */
  function ServeUpdateDatabase(
    env: Env, w: World, catalog: Option<string>, name: Option<string>, input: DatabaseInput): (World, Option<Error>)
  {
    var err := Refusal(env, w, UpdateRefusal(env, w, catalog, name));
    var k := KeyOf(env, catalog, name.GetOr(""));
    var w1 := Logged(Tick(w), UpdateCall(k), map[], err.None?);
    if err.Some? then (w1, err)
    else (w1.(databases := w.databases[k := Stored(env, k, input)]), None)
  }

  function TagRefusal(w: World, arn: string, keys: set<string>): Option<Error> {
    if arn !in w.tags then Some(ApiError("EntityNotFoundException"))
    else if TouchesAWS(keys) then Some(ApiError("InvalidInputException"))
    else None
  }

  function TagsAt(w: World, arn: string): Plain {
    if arn in w.tags then w.tags[arn] else map[]
  }

  function ServeUntagResource(env: Env, w: World, arn: string, keys: set<string>): (World, Option<Error>) {
    var err := Refusal(env, w, TagRefusal(w, arn, keys));
    var w1 := Logged(Tick(w), UntagCall(arn, keys), TagsAt(w, arn), err.None?);
    if err.Some? then (w1, err)
    else (w1.(tags := w.tags[arn := TagsAt(w, arn) - keys]), None)
  }

  function ServeTagResource(env: Env, w: World, arn: string, tags: Plain): (World, Option<Error>) {
    var err := Refusal(env, w, TagRefusal(w, arn, tags.Keys));
    var w1 := Logged(Tick(w), TagCall(arn, tags), TagsAt(w, arn), err.None?);
    if err.Some? then (w1, err)
    else (w1.(tags := w.tags[arn := TagsAt(w, arn) + tags]), None)
  }

  /** The client every resource manager shares. */
  class GlueClient {
    const env: Env
    var w: World

    constructor (env: Env, w: World)
      ensures this.env == env && this.w == w
    {
      this.env, this.w := env, w;
    }

    method GetDatabase(catalog: Option<string>, name: Option<string>) returns (r: Result<SdkDatabase>)
      modifies this
      ensures (w, r) == ServeGetDatabase(env, old(w), catalog, name)
    {
      var answer := ServeGetDatabase(env, w, catalog, name);
      w, r := answer.0, answer.1;
    }

    method GetTags(arn: string) returns (r: Result<Plain>)
      modifies this
      ensures (w, r) == ServeGetTags(env, old(w), arn)
    {
      var answer := ServeGetTags(env, w, arn);
      w, r := answer.0, answer.1;
    }

    method CreateDatabase(catalog: Option<string>, input: DatabaseInput, tags: Plain) returns (err: Option<Error>)
      modifies this
      ensures (w, err) == ServeCreateDatabase(env, old(w), catalog, input, tags)
    {
      var answer := ServeCreateDatabase(env, w, catalog, input, tags);
      w, err := answer.0, answer.1;
    }

    method UpdateDatabase(catalog: Option<string>, name: Option<string>, input: DatabaseInput)
      returns (err: Option<Error>)
      modifies this
      ensures (w, err) == ServeUpdateDatabase(env, old(w), catalog, name, input)
    {
      var answer := ServeUpdateDatabase(env, w, catalog, name, input);
      w, err := answer.0, answer.1;
    }

    method UntagResource(arn: string, keys: set<string>) returns (err: Option<Error>)
      modifies this
      ensures (w, err) == ServeUntagResource(env, old(w), arn, keys)
    {
      var answer := ServeUntagResource(env, w, arn, keys);
      w, err := answer.0, answer.1;
    }

    method TagResource(arn: string, tags: Plain) returns (err: Option<Error>)
      modifies this
      ensures (w, err) == ServeTagResource(env, old(w), arn, tags)
    {
      var answer := ServeTagResource(env, w, arn, tags);
      w, err := answer.0, answer.1;
    }
  }
}
