/** pkg/tags/sync.go: bringing a resource's tags to the desired ones with at most one
    untag call followed by at most one tag call, either of which may fail. */
module TagSync {
  import opened Types
  import opened Tags
  import opened Glue

  /** `GetResourceTags`. */
  method GetResourceTags(client: GlueClient, arn: string) returns (r: Result<StringMap>)
    modifies client
    ensures client.w == ServeGetTags(client.env, old(client.w), arn).0
    ensures var answer := ServeGetTags(client.env, old(client.w), arn).1;
            r == if answer.Err? then Err(answer.error) else Ok(PointerMap(answer.value))
  {
    var response := client.GetTags(arn);
    if response.Err? {
      return Err(response.error);
    }
    var tags: StringMap := map[];
    var todo := response.value.Keys;
    while todo != {}
      invariant todo <= response.value.Keys
      invariant tags == map k | k in response.value && k !in todo :: Some(response.value[k])
      decreases |todo|
    {
      var k :| k in todo;
      tags := tags[k := Some(response.value[k])];
      todo := todo - {k};
    }
    assert tags == PointerMap(response.value);
    r := Ok(tags);
  }

  /** The keys an untag call names: those the resource has and the user does not want. */
  function UntagKeys(latest: Plain, desired: Plain): set<string> {
    latest.Keys - desired.Keys
  }

  /** The world and the error after an untag call and a tag call, each made if it has something to do. */
  function Applied(env: Env, w: World, arn: string, removed: set<string>, added: Plain): (World, Option<Error>) {
    var untag := if removed == {} then (w, None) else ServeUntagResource(env, w, arn, removed);
    if untag.1.Some? || added == map[] then untag
    else ServeTagResource(env, untag.0, arn, added)
  }

  /** The world and the error after a sync that believes the resource carries `latest`. */
  function Synced(env: Env, w: World, arn: string, desired: Plain, latest: Plain): (World, Option<Error>) {
    Applied(env, w, arn, UntagKeys(latest, desired), AddedPairs(latest, desired))
  }

  /** A changed key is in both differences; only its addition is kept. */
  method KeysToRemove(difference: Plain, added: Plain) returns (removed: seq<string>)
    ensures forall k :: k in removed <==> k in difference && k !in added
  {
    var toRemove := difference;
    var todo := toRemove.Keys;
    while todo != {}
      invariant forall k :: k in todo ==> k in toRemove
      invariant forall k :: k in toRemove <==> k in difference && (k in todo || k !in added)
      decreases |todo|
    {
      var key :| key in todo;
      todo := todo - {key};
      if key in added {
        toRemove := toRemove - {key};
      }
    }
    removed := [];
    todo := toRemove.Keys;
    while todo != {}
      invariant forall k :: k in todo ==> k in toRemove
      invariant forall k :: k in removed <==> k in toRemove && k !in todo
      decreases |todo|
    {
      var key :| key in todo;
      removed := removed + [key];
      todo := todo - {key};
    }
  }

  lemma NamedKeys(removed: seq<string>, desired: Plain, latest: Plain)
    requires forall k :: k in removed <==> k in RemovedPairs(latest, desired) && k !in AddedPairs(latest, desired)
    ensures (set k | k in removed) == UntagKeys(latest, desired)
    ensures removed == [] <==> UntagKeys(latest, desired) == {}
  {
    UntagAndTagDisjoint(desired, latest);
    var named := set k | k in removed;
    assert named == RemovedPairs(latest, desired).Keys - AddedPairs(latest, desired).Keys;
    if removed != [] {
      assert removed[0] in named;
    }
  }

  method SyncResourceTags(
    client: GlueClient, arn: string, desiredTags: Option<StringMap>, latestTags: Option<StringMap>)
    returns (err: Option<Error>)
    modifies client
    ensures (client.w, err) == Synced(client.env, old(client.w), arn, TagValues(desiredTags), TagValues(latestTags))
  {
    var desiredACKTags, _ := ConvertToOrderedACKTags(desiredTags);
    var latestACKTags, _ := ConvertToOrderedACKTags(latestTags);
    var added := AddedPairs(latestACKTags.m, desiredACKTags.m);
    var toRemove := RemovedPairs(latestACKTags.m, desiredACKTags.m);

    var removed := KeysToRemove(toRemove, added);
    var named := set k | k in removed;
    NamedKeys(removed, desiredACKTags.m, latestACKTags.m);

    err := ApplyDifference(client, arn, removed, named, added);
  }

  /** The two calls; `named` holds the keys listed in `removed`. */
  method ApplyDifference(client: GlueClient, arn: string, removed: seq<string>, named: set<string>, added: Plain)
    returns (err: Option<Error>)
    requires removed == [] <==> named == {}
    modifies client
    ensures (client.w, err) == Applied(client.env, old(client.w), arn, named, added)
  {
    if |removed| > 0 {
      err := client.UntagResource(arn, named);
      if err.Some? {
        return;
      }
    }
    if |added| > 0 {
      err := client.TagResource(arn, added);
      if err.Some? {
        return;
      }
    }
    err := None;
  }

  // ---------- correctness from any state ----------

  /** What the caller believed about the resource is right where it matters: the keys taken to
      be in place are, and the resource has no key that neither side mentions. */
  predicate Agrees(backend: Plain, latest: Plain, desired: Plain) {
    && backend.Keys <= latest.Keys + desired.Keys
    && forall k | k in desired && k in latest && latest[k] == desired[k] :: k in backend && backend[k] == desired[k]
  }

  /** A sync that reports success leaves the desired tags exactly when the belief agreed with the
      resource; a sync from the tags just read always does. */
  lemma SyncLands(env: Env, w: World, arn: string, desired: Plain, latest: Plain)
    requires arn in w.tags
    requires Synced(env, w, arn, desired, latest).1.None?
    ensures TagsAt(Synced(env, w, arn, desired, latest).0, arn) == desired <==> Agrees(w.tags[arn], latest, desired)
    ensures latest == w.tags[arn] ==> Agrees(w.tags[arn], latest, desired)
  {
    var backend := w.tags[arn];
    var removed, added := UntagKeys(latest, desired), AddedPairs(latest, desired);
    var now := TagsAt(Synced(env, w, arn, desired, latest).0, arn);
    AppliedTags(env, w, arn, removed, added);
    assert now == (backend - removed) + added;
    if Agrees(backend, latest, desired) {
      assert now.Keys == desired.Keys;
      assert forall k | k in desired :: now[k] == desired[k];
    }
    if now == desired {
      forall k | k in backend ensures k in latest.Keys + desired.Keys {
        assert k in removed || k in now;
      }
    }
  }

  /** A sync that does not know of a tag reports success and leaves it in place. */
  lemma StaleSyncStrays(env: Env, arn: string)
    requires env.faults(0).None?
    ensures var w := World(map[], map[arn := map["k" := "v"]], 0, []);
            var (w', err) := Synced(env, w, arn, map["l" := "v"], map[]);
            err.None? && TagsAt(w', arn) == map["k" := "v", "l" := "v"]
  {
    assert AddedPairs(map[], map["l" := "v"]) == map["l" := "v"];
    assert "l"[0] != AWS_PREFIX[0];
  }

  lemma UntaggedTags(env: Env, w: World, arn: string, keys: set<string>)
    requires arn in w.tags
    ensures var (w', err) := ServeUntagResource(env, w, arn, keys);
            && w'.databases == w.databases
            && w'.tags == if err.None? then w.tags[arn := w.tags[arn] - keys] else w.tags
  {
  }

  lemma TaggedTags(env: Env, w: World, arn: string, tags: Plain)
    requires arn in w.tags
    ensures var (w', err) := ServeTagResource(env, w, arn, tags);
            && w'.databases == w.databases
            && w'.tags == if err.None? then w.tags[arn := w.tags[arn] + tags] else w.tags
  {
  }

  /** What the two calls can leave behind: nothing done, or the keys untagged, or both calls done. */
  lemma AppliedTags(env: Env, w: World, arn: string, removed: set<string>, added: Plain)
    requires arn in w.tags
    ensures var (w', err) := Applied(env, w, arn, removed, added);
            var before, now := w.tags[arn], TagsAt(w', arn);
            && (now == before || now == before - removed || now == (before - removed) + added)
            && (err.None? ==> now == (before - removed) + added)
            && w'.databases == w.databases
            && w'.tags == w.tags[arn := now]
  {
    var before := w.tags[arn];
    assert w.tags[arn := before] == w.tags && before - {} == before;
    assert (before - removed) + map[] == before - removed;
    UntaggedTags(env, w, arn, removed);
    var untagged := if removed == {} then w else ServeUntagResource(env, w, arn, removed).0;
    assert arn in untagged.tags;
    TaggedTags(env, untagged, arn, added);
  }

  /** The error of a sync is that of the call that failed: a fault of the first call made, a fault of the tag
      call after an untag call that went through, or a refusal. */
  lemma SyncErrors(env: Env, w: World, arn: string, desired: Plain, latest: Plain)
    requires arn in w.tags
    ensures var err := Synced(env, w, arn, desired, latest).1;
            var untags := exists k | k in latest :: k !in desired;
            var tags := exists k | k in desired :: !(k in latest && latest[k] == desired[k]);
            && ((untags || tags) && env.faults(w.clock).Some? ==> err == env.faults(w.clock))
            && (!untags && !tags ==> err.None?)
            && (untags && env.faults(w.clock).None? && (exists k | k in latest && k !in desired :: "aws:" <= k) ==>
                  err == Some(ApiError("InvalidInputException")))
            && (untags && tags && env.faults(w.clock).None? && env.faults(w.clock + 1).Some? ==>
                  (forall k | k in latest && "aws:" <= k :: k in desired) ==> err == env.faults(w.clock + 1))
  {
    var removed, added := UntagKeys(latest, desired), AddedPairs(latest, desired);
    assert AWS_PREFIX == "aws:";
    assert removed != {} <==> exists k | k in latest :: k !in desired by {
      if exists k | k in latest :: k !in desired {
        var k :| k in latest && k !in desired;
        assert k in removed;
      }
    }
    assert added != map[] <==> exists k | k in desired :: !(k in latest && latest[k] == desired[k]) by {
      if exists k | k in desired :: !(k in latest && latest[k] == desired[k]) {
        var k :| k in desired && !(k in latest && latest[k] == desired[k]);
        assert k in added;
      }
    }
    assert TouchesAWS(removed) <==> exists k | k in latest && k !in desired :: "aws:" <= k by {
      if exists k | k in latest && k !in desired :: "aws:" <= k {
        var k :| k in latest && k !in desired && "aws:" <= k;
        assert k in removed && IsAWS(k);
      }
    }
  }

  /** Whatever fails, every key of the resource holds its old value or its desired one, a key is
      absent only if it was or if it is not desired, and nothing but the resource's tags changes. */
  lemma SyncNeverStrays(env: Env, w: World, arn: string, desired: Plain, latest: Plain, k: string)
    requires arn in w.tags
    ensures var w' := Synced(env, w, arn, desired, latest).0;
            var before, now := w.tags[arn], TagsAt(w', arn);
            && (k in now ==> (k in before && now[k] == before[k]) || (k in desired && now[k] == desired[k]))
            && (k !in now ==> k !in before || k !in desired)
            && w'.databases == w.databases
            && w'.tags == w.tags[arn := now]
  {
    AppliedTags(env, w, arn, UntagKeys(latest, desired), AddedPairs(latest, desired));
  }

  /** No key is named by both calls. */
  lemma UntagAndTagDisjoint(desired: Plain, latest: Plain)
    ensures UntagKeys(latest, desired) !! AddedPairs(latest, desired).Keys
    ensures RemovedPairs(latest, desired).Keys - AddedPairs(latest, desired).Keys == UntagKeys(latest, desired)
  {
  }

  // ---------- each successful call pays off one debt ----------

  function Successes(log: seq<Attempt>): nat {
    if |log| == 0 then 0
    else Successes(log[..|log| - 1]) + (if log[|log| - 1].succeeded then 1 else 0)
  }

  lemma SuccessesAppend(log: seq<Attempt>, a: Attempt)
    ensures Successes(log + [a]) == Successes(log) + (if a.succeeded then 1 else 0)
  {
    assert (log + [a])[..|log|] == log;
  }

  lemma {:induction false} SuccessesMonotone(was: seq<Attempt>, now: seq<Attempt>)
    requires was <= now
    ensures Successes(was) <= Successes(now)
  {
    if |was| < |now| {
      assert was <= now[..|now| - 1];
      SuccessesMonotone(was, now[..|now| - 1]);
    } else {
      assert was == now;
    }
  }

  function Flag(b: bool): nat {
    if b then 1 else 0
  }

  /** How many of the two tag calls are still owed. */
  function TagDebt(backend: Plain, desired: Plain): nat {
    Flag(UntagKeys(backend, desired) != {}) + Flag(AddedPairs(backend, desired) != map[])
  }

  lemma NoTagDebt(backend: Plain, desired: Plain)
    ensures TagDebt(backend, desired) == 0 <==> backend == desired
  {
    if TagDebt(backend, desired) == 0 {
      assert forall k | k in desired :: k !in AddedPairs(backend, desired);
      assert forall k | k in backend :: k !in UntagKeys(backend, desired);
      assert backend.Keys == desired.Keys;
    }
  }

  lemma UntagPays(backend: Plain, desired: Plain)
    ensures UntagKeys(backend - UntagKeys(backend, desired), desired) == {}
    ensures AddedPairs(backend - UntagKeys(backend, desired), desired) == AddedPairs(backend, desired)
  {
    assert forall k | k in desired && k in backend :: k in backend - UntagKeys(backend, desired);
  }

  lemma TagPays(backend: Plain, desired: Plain)
    requires UntagKeys(backend, desired) == {}
    ensures backend + AddedPairs(backend, desired) == desired
  {
    assert forall k | k in backend :: k in desired || k in UntagKeys(backend, desired);
    var now := backend + AddedPairs(backend, desired);
    assert now.Keys == desired.Keys;
    assert forall k | k in desired :: now[k] == desired[k];
  }

  lemma UntagConserves(env: Env, w: World, arn: string, desired: Plain)
    requires arn in w.tags && UntagKeys(w.tags[arn], desired) != {}
    ensures var (w', err) := ServeUntagResource(env, w, arn, UntagKeys(w.tags[arn], desired));
            && arn in w'.tags
            && TagDebt(w'.tags[arn], desired) + Successes(w'.log) == TagDebt(w.tags[arn], desired) + Successes(w.log)
            && (err.None? ==> UntagKeys(w'.tags[arn], desired) == {})
            && AddedPairs(w'.tags[arn], desired) == AddedPairs(w.tags[arn], desired)
  {
    var backend := w.tags[arn];
    var removed := UntagKeys(backend, desired);
    UntagPays(backend, desired);
    var untag := ServeUntagResource(env, w, arn, removed);
    SuccessesAppend(w.log, Attempt(UntagCall(arn, removed), backend, untag.1.None?));
  }

  lemma TagConserves(env: Env, w: World, arn: string, desired: Plain)
    requires arn in w.tags && UntagKeys(w.tags[arn], desired) == {} && AddedPairs(w.tags[arn], desired) != map[]
    ensures var w' := ServeTagResource(env, w, arn, AddedPairs(w.tags[arn], desired)).0;
            && arn in w'.tags
            && TagDebt(w'.tags[arn], desired) + Successes(w'.log) == TagDebt(w.tags[arn], desired) + Successes(w.log)
  {
    var backend := w.tags[arn];
    var added := AddedPairs(backend, desired);
    TagPays(backend, desired);
    NoTagDebt(desired, desired);
    var tag := ServeTagResource(env, w, arn, added);
    SuccessesAppend(w.log, Attempt(TagCall(arn, added), backend, tag.1.None?));
  }

  /** A sync from the tags as they are lowers the debt by one for each call that succeeds and
      leaves it alone for each that fails. */
  lemma SyncConservesDebt(env: Env, w: World, arn: string, desired: Plain)
    requires arn in w.tags
    ensures var w' := Synced(env, w, arn, desired, w.tags[arn]).0;
            && arn in w'.tags
            && TagDebt(w'.tags[arn], desired) + Successes(w'.log) == TagDebt(w.tags[arn], desired) + Successes(w.log)
  {
    var removed, added := UntagKeys(w.tags[arn], desired), AddedPairs(w.tags[arn], desired);
    var untag := if removed == {} then (w, None) else ServeUntagResource(env, w, arn, removed);
    if removed != {} {
      UntagConserves(env, w, arn, desired);
    }
    if untag.1.None? && added != map[] {
      TagConserves(env, untag.0, arn, desired);
    }
  }

  // ---------- AWS-owned tags ----------

  /** The call leaves AWS-owned tags alone: it untags none and tags none that the resource has. */
  predicate Safe(a: Attempt) {
    match a.call
    case UntagCall(_, keys) => !TouchesAWS(keys)
    case TagCall(_, tags) => forall k | k in tags && IsAWS(k) :: k !in a.before
    case _ => true
  }

  /** Every AWS-owned tag the caller saw is in the desired tags with the same value. */
  predicate Mirrored(desired: Plain, latest: Plain) {
    forall k | k in latest && IsAWS(k) :: k in desired && desired[k] == latest[k]
  }

  ghost predicate GrewSafely(was: seq<Attempt>, now: seq<Attempt>) {
    was <= now && forall i | |was| <= i < |now| :: Safe(now[i])
  }

  lemma UntagIsSafe(env: Env, w: World, arn: string, keys: set<string>)
    requires !TouchesAWS(keys)
    ensures var w' := ServeUntagResource(env, w, arn, keys).0;
            GrewSafely(w.log, w'.log) && TagsAt(w', arn).Keys <= TagsAt(w, arn).Keys
  {
  }

  lemma TagIsSafe(env: Env, w: World, arn: string, tags: Plain)
    requires forall k | k in tags && IsAWS(k) :: k !in TagsAt(w, arn)
    ensures GrewSafely(w.log, ServeTagResource(env, w, arn, tags).0.log)
  {
  }

  /** From a mirrored desired state every call of a sync is safe, failed ones included, even when
      other tags changed since `latest` was read. */
  lemma SyncIsSafe(env: Env, w: World, arn: string, desired: Plain, latest: Plain)
    requires Mirrored(desired, latest)
    requires AwsPart(TagsAt(w, arn)).Keys <= latest.Keys
    ensures GrewSafely(w.log, Synced(env, w, arn, desired, latest).0.log)
  {
    var removed, added := UntagKeys(latest, desired), AddedPairs(latest, desired);
    var untagged := if removed == {} then w else ServeUntagResource(env, w, arn, removed).0;
    assert forall k | k in TagsAt(w, arn) && IsAWS(k) :: k in AwsPart(TagsAt(w, arn));
    UntagIsSafe(env, w, arn, removed);
    TagIsSafe(env, untagged, arn, added);
  }

  /** Without faults a sync from a mirrored state fails exactly when it has an AWS tag to add, after its
      untagging is done. */
  lemma CalmSync(env: Env, w: World, arn: string, desired: Plain, latest: Plain)
    requires arn in w.tags && Mirrored(desired, latest)
    requires Calm(env, w.clock, Synced(env, w, arn, desired, latest).0.clock)
    ensures var (w', err) := Synced(env, w, arn, desired, latest);
            && (err.Some? <==> TouchesAWS(AddedPairs(latest, desired).Keys))
            && (err.Some? ==> TagsAt(w', arn) == w.tags[arn] - UntagKeys(latest, desired))
  {
    assert !TouchesAWS(UntagKeys(latest, desired));
    assert w.tags[arn] - {} == w.tags[arn];
  }
}
