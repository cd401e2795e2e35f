/** pkg/resource/database/manager_factory.go: the cache of resource managers. A call of
    `ManagerFor` takes the lock twice: once to look its key up and, if that missed, once more
    to build a manager and store it, without looking again. Calls may interleave at will
    between the two. */
module ManagerCache {
  import opened Types
  import opened Identifiers

  /** A resource manager; `serial` is its identity, the count of managers built before it. */
  datatype Manager = Manager(serial: nat, account: string, region: string)

  datatype Args = Args(account: string, region: string, roleARN: string)

  /** Where a call stands: it missed and is about to take the write lock, or it has returned. */
  datatype Call = Pending(args: Args) | Returned(args: Args, rm: Manager)

  datatype Sys = Sys(cache: map<string, Manager>, built: nat, calls: map<nat, Call>)

  /** One critical section of the call with the given number. */
  datatype Event = Lookup(call: nat, args: Args) | Store(call: nat)

  function KeyOf(args: Args): string {
    ManagerKey(args.account, args.region, args.roleARN)
  }

  predicate Enabled(s: Sys, e: Event) {
    match e
    case Lookup(t, _) => t !in s.calls
    case Store(t) => t in s.calls && s.calls[t].Pending?
  }

  function Built(s: Sys, args: Args): Manager {
    Manager(s.built, args.account, args.region)
  }

  function Next(s: Sys, e: Event): Sys
    requires Enabled(s, e)
  {
    match e
    case Lookup(t, args) =>
      if KeyOf(args) in s.cache then s.(calls := s.calls[t := Returned(args, s.cache[KeyOf(args)])])
      else s.(calls := s.calls[t := Pending(args)])
    case Store(t) =>
      var args := s.calls[t].args;
      var rm := Built(s, args);
      Sys(s.cache[KeyOf(args) := rm], s.built + 1, s.calls[t := Returned(args, rm)])
  }

  const START := Sys(map[], 0, map[])

  /** The state after a history of critical sections, each of which was possible when it came. */
  ghost predicate Reaches(s: Sys, history: seq<Event>, t: Sys)
    decreases |history|
  {
    if |history| == 0 then s == t
    else Enabled(s, history[0]) && Reaches(Next(s, history[0]), history[1..], t)
  }

  // ---------- the critical sections themselves ----------

  class ResourceManagerFactory {
    var rmCache: map<string, Manager>
    var built: nat

    constructor ()
      ensures rmCache == map[] && built == 0
    {
      rmCache, built := map[], 0;
    }

    /** Under the read lock. */
    method Find(args: Args) returns (rm: Option<Manager>)
      ensures rm == if KeyOf(args) in rmCache then Some(rmCache[KeyOf(args)]) else None
    {
      var rmId := ManagerKey(args.account, args.region, args.roleARN);
      rm := if rmId in rmCache then Some(rmCache[rmId]) else None;
    }

    /** Under the write lock. */
    method BuildAndStore(args: Args) returns (rm: Manager)
      modifies this
      ensures rm == Manager(old(built), args.account, args.region)
      ensures rmCache == old(rmCache)[KeyOf(args) := rm] && built == old(built) + 1
    {
      var rmId := ManagerKey(args.account, args.region, args.roleARN);
      rm := Manager(built, args.account, args.region);
      built := built + 1;
      rmCache := rmCache[rmId := rm];
    }

    /** A call that is not interleaved with others: its lookup, and on a miss its store. */
    method ManagerFor(args: Args, ghost s: Sys, ghost t: nat) returns (rm: Manager)
      requires s.cache == rmCache && s.built == built && t !in s.calls
      modifies this
      ensures var looked := Next(s, Lookup(t, args));
              var after := if looked.calls[t].Pending? then Next(looked, Store(t)) else looked;
              rmCache == after.cache && built == after.built && after.calls[t] == Returned(args, rm)
    {
      var found := Find(args);
      if found.Some? {
        return found.value;
      }
      rm := BuildAndStore(args);
    }
  }

  // ---------- what every interleaving keeps ----------

  predicate Serves(rm: Manager, args: Args) {
    rm.account == args.account && rm.region == args.region
  }

  ghost predicate AllServed(s: Sys) {
    forall c | c in s.calls && s.calls[c].Returned? :: Serves(s.calls[c].rm, s.calls[c].args)
  }

  /** Every call is made with arguments from A. */
  ghost predicate UsesOnly(history: seq<Event>, A: iset<Args>) {
    forall i :: 0 <= i < |history| && history[i].Lookup? ==> history[i].args in A
  }

  predicate SameSlashes(x: Args, y: Args) {
    Count('/', x.account) == Count('/', y.account) && Count('/', x.region) == Count('/', y.region)
  }

  /** Arguments of A that share a key have as many slashes in their accounts and in their regions. */
  ghost predicate TellsApart(A: iset<Args>) {
    forall x, y :: x in A && y in A && KeyOf(x) == KeyOf(y) ==> SameSlashes(x, y)
  }

  lemma SameKeySameManager(x: Args, y: Args, rm: Manager)
    requires KeyOf(x) == KeyOf(y) && Serves(rm, x)
    ensures Serves(rm, y) <==> SameSlashes(x, y)
  {
    ManagerKeyDetermines(x.account, x.region, x.roleARN, y.account, y.region, y.roleARN);
  }

  /** Every cached manager was built for some arguments with its key, every call works with
      arguments from A, and every returned manager serves the arguments of its call. */
  ghost predicate Inv(s: Sys, A: iset<Args>) {
    && (forall k | k in s.cache :: exists args :: args in A && KeyOf(args) == k && Serves(s.cache[k], args))
    && (forall t | t in s.calls :: s.calls[t].args in A)
    && AllServed(s)
  }

  lemma CachedServes(s: Sys, A: iset<Args>, args: Args)
    requires Inv(s, A) && TellsApart(A) && args in A && KeyOf(args) in s.cache
    ensures Serves(s.cache[KeyOf(args)], args)
  {
    var k := KeyOf(args);
    var a :| a in A && KeyOf(a) == k && Serves(s.cache[k], a);
    SameKeySameManager(a, args, s.cache[k]);
  }

  lemma NextKeepsInv(s: Sys, A: iset<Args>, e: Event)
    requires Inv(s, A) && TellsApart(A) && Enabled(s, e) && (e.Lookup? ==> e.args in A)
    ensures Inv(Next(s, e), A)
  {
    match e
    case Lookup(t, args) =>
      if KeyOf(args) in s.cache {
        CachedServes(s, A, args);
      }
    case Store(t) =>
      var s' := Next(s, e);
      var args := s.calls[t].args;
      forall k | k in s'.cache ensures exists a :: a in A && KeyOf(a) == k && Serves(s'.cache[k], a) {
        if k == KeyOf(args) {
          assert Serves(s'.cache[k], args);
        } else {
          var a :| a in A && KeyOf(a) == k && Serves(s.cache[k], a);
        }
      }
  }

  lemma {:induction false} HistoryKeepsInv(s: Sys, A: iset<Args>, history: seq<Event>, t: Sys)
    requires Inv(s, A) && TellsApart(A) && UsesOnly(history, A) && Reaches(s, history, t)
    ensures Inv(t, A)
    decreases |history|
  {
    if |history| > 0 {
      assert history[0].Lookup? ==> history[0].args in A;
      NextKeepsInv(s, A, history[0]);
      HistoryKeepsInv(Next(s, history[0]), A, history[1..], t);
    }
  }

  /** Under every interleaving of calls with arguments from A every returned manager carries the
      account and region of its call, exactly when A tells its keys apart. */
  lemma ManagersServeTheirKey(A: iset<Args>)
    ensures TellsApart(A) <==> forall history, t :: UsesOnly(history, A) && Reaches(START, history, t) ==> AllServed(t)
  {
    if TellsApart(A) {
      forall history, t | UsesOnly(history, A) && Reaches(START, history, t) ensures AllServed(t) {
        HistoryKeepsInv(START, A, history, t);
      }
    } else {
      var x, y :| x in A && y in A && KeyOf(x) == KeyOf(y) && !SameSlashes(x, y);
      var t := SharedKeyMixesUp(x, y);
      assert UsesOnly(MixUp(x, y), A);
    }
  }

  /** And then every manager cached under the key of arguments from A carries their account and region. */
  lemma CachedManagersServe(A: iset<Args>, history: seq<Event>, t: Sys, args: Args)
    requires TellsApart(A) && UsesOnly(history, A) && Reaches(START, history, t)
    requires args in A && KeyOf(args) in t.cache
    ensures Serves(t.cache[KeyOf(args)], args)
  {
    HistoryKeepsInv(START, A, history, t);
    CachedServes(t, A, args);
  }

  /** Accounts and regions without slashes are told apart. */
  lemma SlashFreeIsToldApart(A: iset<Args>)
    requires forall x | x in A :: '/' !in x.account && '/' !in x.region
    ensures TellsApart(A)
  {
    forall x | x in A ensures Count('/', x.account) == 0 && Count('/', x.region) == 0 {
      CountIsZero('/', x.account);
      CountIsZero('/', x.region);
    }
  }

  function MixUp(x: Args, y: Args): seq<Event> {
    [Lookup(0, x), Store(0), Lookup(1, y)]
  }

  lemma SharedKeyMixesUp(x: Args, y: Args) returns (t: Sys)
    requires KeyOf(x) == KeyOf(y) && !SameSlashes(x, y)
    ensures Reaches(START, MixUp(x, y), t) && 1 in t.calls && t.calls[1].Returned? && !Serves(t.calls[1].rm, y)
    ensures t.calls[1].args == y && !AllServed(t)
    ensures 0 in t.calls && t.calls[0].Returned? && t.calls[0].args == x && t.calls[0].rm == t.calls[1].rm
  {
    var history := MixUp(x, y);
    var s1 := Next(START, Lookup(0, x));
    var s2 := Next(s1, Store(0));
    t := Next(s2, Lookup(1, y));
    assert history[1..] == [Store(0), Lookup(1, y)];
    assert history[1..][1..] == [Lookup(1, y)] && history[1..][1..][1..] == [];
    assert Reaches(t, [], t) && Reaches(s2, [Lookup(1, y)], t) && Reaches(s1, history[1..], t);
    SameKeySameManager(x, y, Built(START, x));
  }

  /** The manager for an account with a slash is handed to another account that has the same key. */
  lemma SlashesMixManagers(a: string, x: string, region: string, role: string)
    ensures var first, second := Args(a + "/" + x, region, role), Args(a, x + "/" + region, role);
            exists t :: && Reaches(START, MixUp(first, second), t)
                        && 1 in t.calls && t.calls[1].Returned? && !Serves(t.calls[1].rm, second)
  {
    SlashesCollide(a, x, region, role);
    CountAppends('/', a + "/", x);
    CountAppends('/', a, "/");
    var t := SharedKeyMixesUp(Args(a + "/" + x, region, role), Args(a, x + "/" + region, role));
  }

  // ---------- who shares a manager ----------

  /** The cached manager of key k was built before now. */
  predicate BuiltBefore(s: Sys, k: string) {
    k in s.cache && s.cache[k].serial < s.built
  }

  /** Every manager there is was built for one key, and before now. */
  ghost predicate OneKeyEach(s: Sys) {
    && (forall k | k in s.cache :: BuiltBefore(s, k))
    && (forall k, l | k in s.cache && l in s.cache && k != l :: s.cache[k].serial != s.cache[l].serial)
    && (forall c | c in s.calls && s.calls[c].Returned? :: s.calls[c].rm.serial < s.built)
    && (forall c, k | c in s.calls && s.calls[c].Returned? && k in s.cache && k != KeyOf(s.calls[c].args) ::
          s.calls[c].rm.serial != s.cache[k].serial)
    && (forall c, d | && c in s.calls && s.calls[c].Returned? && d in s.calls && s.calls[d].Returned?
                      && KeyOf(s.calls[c].args) != KeyOf(s.calls[d].args) ::
          s.calls[c].rm.serial != s.calls[d].rm.serial)
  }

  lemma NextKeepsOneKey(s: Sys, e: Event)
    requires OneKeyEach(s) && Enabled(s, e)
    ensures OneKeyEach(Next(s, e))
  {
    match e
    case Lookup(t, args) => LookupKeepsOneKey(s, t, args);
    case Store(t) => StoreKeepsOneKey(s, t);
  }

  lemma LookupKeepsOneKey(s: Sys, t: nat, args: Args)
    requires OneKeyEach(s) && Enabled(s, Lookup(t, args))
    ensures OneKeyEach(Next(s, Lookup(t, args)))
  {
  }

  lemma StoreKeepsOneKey(s: Sys, t: nat)
    requires OneKeyEach(s) && Enabled(s, Store(t))
    ensures OneKeyEach(Next(s, Store(t)))
  {
    var s' := Next(s, Store(t));
    var k := KeyOf(s.calls[t].args);
    assert s'.cache[k].serial == s.built == s'.calls[t].rm.serial;
    assert forall c | c in s'.calls && c != t :: c in s.calls && s'.calls[c] == s.calls[c];
    assert forall l | l in s'.cache && l != k :: l in s.cache && s'.cache[l] == s.cache[l];
  }

  lemma {:induction false} HistoryKeepsOneKey(s: Sys, history: seq<Event>, t: Sys)
    requires OneKeyEach(s) && Reaches(s, history, t)
    ensures OneKeyEach(t)
    decreases |history|
  {
    if |history| > 0 {
      NextKeepsOneKey(s, history[0]);
      HistoryKeepsOneKey(Next(s, history[0]), history[1..], t);
    }
  }

  /** Calls that hold the same manager were made with the same arguments, role ARN included. */
  ghost predicate SharedBySame(s: Sys) {
    forall c, d | && c in s.calls && s.calls[c].Returned? && d in s.calls && s.calls[d].Returned?
                  && s.calls[c].rm == s.calls[d].rm ::
      s.calls[c].args == s.calls[d].args
  }

  /** Under every interleaving of calls with arguments from A, managers are shared between calls with the same
      account, region and role ARN only, exactly when A tells its keys apart. */
  lemma ManagersAreNotShared(A: iset<Args>)
    ensures TellsApart(A) <==>
            forall history, t :: UsesOnly(history, A) && Reaches(START, history, t) ==> SharedBySame(t)
  {
    if TellsApart(A) {
      forall history, t | UsesOnly(history, A) && Reaches(START, history, t) ensures SharedBySame(t) {
        HistoryKeepsInv(START, A, history, t);
        HistoryKeepsOneKey(START, history, t);
        OneKeyIsEnough(t, A);
      }
    } else {
      var x, y :| x in A && y in A && KeyOf(x) == KeyOf(y) && !SameSlashes(x, y);
      var t := SharedKeyMixesUp(x, y);
      assert UsesOnly(MixUp(x, y), A);
      assert x != y && !SharedBySame(t);
    }
  }

  lemma OneKeyIsEnough(s: Sys, A: iset<Args>)
    requires OneKeyEach(s) && TellsApart(A)
    requires forall c | c in s.calls :: s.calls[c].args in A
    ensures SharedBySame(s)
  {
    forall c, d | && c in s.calls && s.calls[c].Returned? && d in s.calls && s.calls[d].Returned?
                  && s.calls[c].rm == s.calls[d].rm
      ensures s.calls[c].args == s.calls[d].args
    {
      var x, y := s.calls[c].args, s.calls[d].args;
      assert KeyOf(x) == KeyOf(y);
      ManagerKeyDetermines(x.account, x.region, x.roleARN, y.account, y.region, y.roleARN);
    }
  }

  // ---------- when an entry is fixed ----------

  /** Some call of key k missed and has not stored yet. */
  predicate HasPending(s: Sys, k: string) {
    exists t :: t in s.calls && s.calls[t].Pending? && KeyOf(s.calls[t].args) == k
  }

  /** Every reachable cache holds only managers that were built. */
  lemma {:induction false} CacheIsBuilt(s: Sys, history: seq<Event>, t: Sys)
    requires forall k | k in s.cache :: BuiltBefore(s, k)
    requires Reaches(s, history, t)
    ensures forall k | k in t.cache :: BuiltBefore(t, k)
    decreases |history|
  {
    if |history| > 0 {
      var s' := Next(s, history[0]);
      assert forall k | k in s'.cache :: (k in s.cache ==> BuiltBefore(s, k)) && BuiltBefore(s', k);
      CacheIsBuilt(s', history[1..], t);
    }
  }

  /** A cached key stays cached, and its entry changes in a step exactly when a pending call of that
      key stores. */
  lemma EntryChangesOnlyByStore(s: Sys, e: Event, k: string)
    requires Enabled(s, e) && BuiltBefore(s, k)
    ensures BuiltBefore(Next(s, e), k)
    ensures Next(s, e).cache[k] != s.cache[k] <==> e.Store? && KeyOf(s.calls[e.call].args) == k
  {
  }

  /** No call comes to wait for the write lock on behalf of a cached key. */
  lemma NoNewPending(s: Sys, e: Event, k: string)
    requires Enabled(s, e) && k in s.cache
    ensures HasPending(Next(s, e), k) ==> HasPending(s, k)
  {
    if HasPending(Next(s, e), k) {
      var t :| t in Next(s, e).calls && Next(s, e).calls[t].Pending? && KeyOf(Next(s, e).calls[t].args) == k;
      assert t in s.calls && s.calls[t].Pending?;
    }
  }

  lemma {:induction false} KeysStay(s: Sys, history: seq<Event>, t: Sys, k: string)
    requires Reaches(s, history, t) && k in s.cache
    ensures k in t.cache
    decreases |history|
  {
    if |history| > 0 {
      KeysStay(Next(s, history[0]), history[1..], t, k);
    }
  }

  /** Once a key is cached with no call of it between its two locks, its entry is fixed: whatever
      happens, it stays what it is, and every call of that key that comes later returns it. */
  lemma {:induction false} EntryFixed(s: Sys, history: seq<Event>, t: Sys, k: string)
    requires Reaches(s, history, t)
    requires k in s.cache && !HasPending(s, k)
    ensures k in t.cache && t.cache[k] == s.cache[k] && !HasPending(t, k)
    ensures forall c | c in s.calls && s.calls[c].Returned? :: c in t.calls && t.calls[c] == s.calls[c]
    ensures forall c | c in t.calls && c !in s.calls && KeyOf(t.calls[c].args) == k ::
              t.calls[c] == Returned(t.calls[c].args, s.cache[k])
    decreases |history|
  {
    if |history| > 0 {
      var e := history[0];
      NoNewPending(s, e, k);
      assert e.Store? ==> KeyOf(s.calls[e.call].args) != k;
      EntryFixed(Next(s, e), history[1..], t, k);
      ArgsStay(Next(s, e), history[1..], t);
    }
  }

  ghost predicate FixedFrom(s: Sys, k: string)
    requires k in s.cache
  {
    forall history, t :: Reaches(s, history, t) ==> k in t.cache && t.cache[k] == s.cache[k]
  }

  /** A cached entry is the same in every future exactly when no call of its key is between its two locks. */
  lemma EntryFixedExactly(s: Sys, k: string)
    requires BuiltBefore(s, k)
    ensures FixedFrom(s, k) <==> !HasPending(s, k)
  {
    if !HasPending(s, k) {
      forall history, t | Reaches(s, history, t) ensures k in t.cache && t.cache[k] == s.cache[k] {
        EntryFixed(s, history, t, k);
      }
    } else {
      var c :| c in s.calls && s.calls[c].Pending? && KeyOf(s.calls[c].args) == k;
      var t := Next(s, Store(c));
      EntryChangesOnlyByStore(s, Store(c), k);
      var history := [Store(c)];
      assert history[1..] == [] && Reaches(t, [], t);
      assert Reaches(s, history, t) && t.cache[k] != s.cache[k];
    }
  }

  /** The call c of key k returned after state s. */
  predicate ReturnedSince(s: Sys, t: Sys, c: nat, k: string) {
    c in t.calls && t.calls[c].Returned? && KeyOf(t.calls[c].args) == k && !(c in s.calls && s.calls[c].Returned?)
  }

  /** In every future, all calls of key k that have yet to return get one manager. */
  ghost predicate OneManagerFrom(s: Sys, k: string) {
    forall history, t, c, d ::
      Reaches(s, history, t) && ReturnedSince(s, t, c, k) && ReturnedSince(s, t, d, k) ==>
        t.calls[c].rm == t.calls[d].rm
  }

  /** From here on a key has one manager exactly when it is cached with no call of it between its two locks. */
  lemma OneManagerExactly(s: Sys, args: Args)
    requires forall k | k in s.cache :: BuiltBefore(s, k)
    ensures OneManagerFrom(s, KeyOf(args)) <==> KeyOf(args) in s.cache && !HasPending(s, KeyOf(args))
  {
    var k := KeyOf(args);
    if k !in s.cache {
      MissesRace(s, args);
    } else if HasPending(s, k) {
      PendingOverwrites(s, args);
    } else {
      forall history, t, c, d | Reaches(s, history, t) && ReturnedSince(s, t, c, k) && ReturnedSince(s, t, d, k)
        ensures t.calls[c].rm == t.calls[d].rm
      {
        EntryFixed(s, history, t, k);
        ArgsStay(s, history, t);
        assert c !in s.calls && d !in s.calls;
      }
    }
  }

  /** A hit now and a store later differ. */
  lemma PendingOverwrites(s: Sys, args: Args)
    requires BuiltBefore(s, KeyOf(args)) && HasPending(s, KeyOf(args))
    ensures !OneManagerFrom(s, KeyOf(args))
  {
    var k := KeyOf(args);
    var p :| p in s.calls && s.calls[p].Pending? && KeyOf(s.calls[p].args) == k;
    var c := FreshNumber(s.calls.Keys);
    var s1 := Next(s, Lookup(c, args));
    var s2 := Next(s1, Store(p));
    var history := [Lookup(c, args), Store(p)];
    assert history[1..] == [Store(p)] && history[1..][1..] == [];
    assert Reaches(s2, [], s2) && Reaches(s1, history[1..], s2) && Reaches(s, history, s2);
    assert ReturnedSince(s, s2, c, k) && ReturnedSince(s, s2, p, k);
    assert s2.calls[c].rm != s2.calls[p].rm;
  }

  /** Two misses build two managers. */
  lemma MissesRace(s: Sys, args: Args)
    requires KeyOf(args) !in s.cache
    ensures !OneManagerFrom(s, KeyOf(args))
  {
    var k := KeyOf(args);
    var c := FreshNumber(s.calls.Keys);
    var d := FreshNumber(s.calls.Keys + {c});
    var s1 := Next(s, Lookup(c, args));
    var s2 := Next(s1, Lookup(d, args));
    var s3 := Next(s2, Store(c));
    var s4 := Next(s3, Store(d));
    var history := [Lookup(c, args), Lookup(d, args), Store(c), Store(d)];
    var h1, h2, h3 := history[1..], history[1..][1..], history[1..][1..][1..];
    assert h1[0] == history[1] && h2[0] == history[2] && h3[0] == history[3] && h3[1..] == [];
    assert Reaches(s4, [], s4) && Reaches(s3, h3, s4) && Reaches(s2, h2, s4) && Reaches(s1, h1, s4);
    assert Reaches(s, history, s4);
    assert ReturnedSince(s, s4, c, k) && ReturnedSince(s, s4, d, k);
    assert s4.calls[c].rm != s4.calls[d].rm;
  }

  lemma FreshNumber(used: set<nat>) returns (c: nat)
    ensures c !in used
  {
    c := Bound(used);
  }

  lemma {:induction false} Bound(used: set<nat>) returns (b: nat)
    ensures forall x | x in used :: x < b
    decreases |used|
  {
    b := 0;
    if used != {} {
      var x :| x in used;
      var rest := Bound(used - {x});
      b := if x < rest then rest else x + 1;
      assert forall y | y in used :: y == x || y in used - {x};
    }
  }

  lemma {:induction false} ArgsStay(s: Sys, history: seq<Event>, t: Sys)
    requires Reaches(s, history, t)
    ensures forall c | c in s.calls :: c in t.calls && t.calls[c].args == s.calls[c].args
    decreases |history|
  {
    if |history| > 0 {
      ArgsStay(Next(s, history[0]), history[1..], t);
    }
  }

  /** There is no second look under the write lock: two racing calls of one key get two managers. */
  lemma RacingCallsGetTwo(args: Args)
    ensures var history := [Lookup(0, args), Lookup(1, args), Store(0), Store(1)];
            exists t :: Reaches(START, history, t) && 0 in t.calls && 1 in t.calls
                        && t.calls[0].Returned? && t.calls[1].Returned? && t.calls[0].rm != t.calls[1].rm
  {
    var history := [Lookup(0, args), Lookup(1, args), Store(0), Store(1)];
    var s1 := Next(START, history[0]);
    var s2 := Next(s1, history[1]);
    var s3 := Next(s2, history[2]);
    var s4 := Next(s3, history[3]);
    var h1, h2, h3 := history[1..], history[1..][1..], history[1..][1..][1..];
    assert h1[0] == history[1] && h2[0] == history[2] && h3[0] == history[3] && h3[1..] == [];
    assert Reaches(s4, [], s4) && Reaches(s3, h3, s4) && Reaches(s2, h2, s4) && Reaches(s1, h1, s4);
    assert Reaches(START, history, s4);
  }
}
