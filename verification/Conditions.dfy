/** The condition list of a resource's status as a value, and what one pass through
    `updateConditions` (pkg/resource/database/sdk.go) makes of it. The methods that
    edit the list through pointers are proved against these functions. */
module Conditions {
  import opened Types

  datatype ConditionType =
    | TypeTerminal
    | TypeRecoverable
    | TypeResourceSynced
    | TypeLateInitialized
    | TypeOther(name: string)

  datatype ConditionStatus = ConditionTrue | ConditionFalse | ConditionUnknown

  /** A message is either taken from an error or one of the controller's fixed texts. */
  datatype Message = FromError(e: Error) | Note(text: string)

  datatype Cond = Cond(ctype: ConditionType, status: ConditionStatus, message: Option<Message>)

  /** The outcome of one operation: nil or the error it returned. */
  type Outcome = Option<Error>

  /** `terminalAWSError`: the first API error of the chain carries a terminal code. */
  predicate TerminalAWSError(err: Outcome) {
    err.Some? && err.value.ApiCode() == Some("InvalidInputException")
  }

  /** The errors `updateConditions` files under Terminal. */
  predicate IsTerminalClass(err: Outcome) {
    || TerminalAWSError(err)
    || err == Some(SecretTypeNotSupported)
    || err == Some(SecretNotFound)
    || (err.Some? && err.value.HasTerminalError())
  }

  /** What makes an error terminal, in terms of its chain: the one terminal code, a TerminalError layer, or
      being one of the two secret errors itself. */
  predicate TerminalChain(layers: seq<bool>, leaf: Error) {
    || leaf == ApiError("InvalidInputException")
    || true in layers
    || (layers == [] && (leaf == SecretTypeNotSupported || leaf == SecretNotFound))
  }

  /** The classification of every error. */
  lemma TerminalClassExactly(layers: seq<bool>, leaf: Error)
    requires IsLeaf(leaf)
    ensures IsTerminalClass(Some(Chain(layers, leaf))) <==> TerminalChain(layers, leaf)
    ensures !IsTerminalClass(None)
  {
    ChainsUnwrap(layers, leaf);
  }

  /** The position the scanning loop ends with for type t: that of the last such entry, or -1. */
  function LastOf(cs: seq<Cond>, t: ConditionType): (i: int)
    ensures -1 <= i < |cs|
    ensures i >= 0 ==> cs[i].ctype == t
    ensures forall j :: i < j < |cs| ==> cs[j].ctype != t
  {
    if |cs| == 0 then -1
    else if cs[|cs| - 1].ctype == t then |cs| - 1
    else LastOf(cs[..|cs| - 1], t)
  }

  predicate Has(cs: seq<Cond>, t: ConditionType) {
    LastOf(cs, t) >= 0
  }

  function Put(cs: seq<Cond>, t: ConditionType, s: ConditionStatus, m: Option<Message>): seq<Cond> {
    var i := LastOf(cs, t);
    if i == -1 then cs + [Cond(t, s, m)] else cs[i := Cond(t, s, m)]
  }

  function Clear(cs: seq<Cond>, t: ConditionType): seq<Cond> {
    if LastOf(cs, t) == -1 then cs else Put(cs, t, ConditionFalse, None)
  }

  /** The list after one outcome. */
  function Updated(cs: seq<Cond>, err: Outcome): seq<Cond> {
    if IsTerminalClass(err) then
      Put(cs, TypeTerminal, ConditionTrue, Some(FromError(err.value)))
    else
      var cleared := Clear(cs, TypeTerminal);
      if err.Some? then Put(cleared, TypeRecoverable, ConditionTrue, Some(FromError(err.value)))
      else Clear(cleared, TypeRecoverable)
  }

  /** Whether `updateConditions` reports an update. */
  predicate ReportsUpdate(cs: seq<Cond>, err: Outcome) {
    err.Some? || Has(cs, TypeTerminal) || Has(cs, TypeRecoverable) || Has(cs, TypeResourceSynced)
  }

  /** The list after a whole history of outcomes. */
  function After(cs: seq<Cond>, history: seq<Outcome>): seq<Cond> {
    if |history| == 0 then cs
    else Updated(After(cs, history[..|history| - 1]), history[|history| - 1])
  }

  // ---------- what a reader of the list sees ----------

  predicate IsTrue(cs: seq<Cond>, t: ConditionType) {
    var i := LastOf(cs, t);
    i >= 0 && cs[i].status == ConditionTrue
  }

  predicate AnyTrue(cs: seq<Cond>, t: ConditionType) {
    exists i :: 0 <= i < |cs| && cs[i].ctype == t && cs[i].status == ConditionTrue
  }

  predicate AtMostOne(cs: seq<Cond>, t: ConditionType) {
    forall i, j :: 0 <= i < j < |cs| ==> !(cs[i].ctype == t && cs[j].ctype == t)
  }

  /** A True entry of type t that is not the last one of its type, out of the update's reach. */
  predicate BuriedTrue(cs: seq<Cond>, t: ConditionType) {
    exists i :: 0 <= i < LastOf(cs, t) && cs[i].ctype == t && cs[i].status == ConditionTrue
  }

  /** The last outcome of the history that is not of the terminal class. */
  function LastNonTerminal(history: seq<Outcome>): Option<Outcome> {
    if |history| == 0 then None
    else if !IsTerminalClass(history[|history| - 1]) then Some(history[|history| - 1])
    else LastNonTerminal(history[..|history| - 1])
  }

  /** `now` is `was` with its length only grown at the end, every type kept in place,
      nothing touched but the last entry of type t, which now has the given status. */
  ghost predicate Touched(was: seq<Cond>, now: seq<Cond>, t: ConditionType) {
    && |was| <= |now|
    && (forall i :: 0 <= i < |was| ==> now[i].ctype == was[i].ctype)
    && (forall i :: 0 <= i < |was| && i != LastOf(was, t) ==> now[i] == was[i])
    && (if Has(was, t) then |now| == |was| else |now| <= |was| + 1)
    && (|now| == |was| + 1 ==> now[|was|].ctype == t)
  }

  lemma LastOfIs(cs: seq<Cond>, t: ConditionType, i: int)
    requires 0 <= i < |cs| && cs[i].ctype == t
    requires forall j :: i < j < |cs| ==> cs[j].ctype != t
    ensures LastOf(cs, t) == i
  {
  }

  /** The last position of a type depends on the types alone. */
  lemma SameTypesSameLast(a: seq<Cond>, b: seq<Cond>, t: ConditionType)
    requires |a| == |b| && forall i :: 0 <= i < |a| ==> a[i].ctype == b[i].ctype
    ensures LastOf(a, t) == LastOf(b, t)
  {
    var i := LastOf(a, t);
    if i >= 0 {
      LastOfIs(b, t, i);
    }
  }

  lemma PutTouches(cs: seq<Cond>, t: ConditionType, s: ConditionStatus, m: Option<Message>)
    ensures Touched(cs, Put(cs, t, s, m), t)
    ensures Has(Put(cs, t, s, m), t) && Put(cs, t, s, m)[LastOf(Put(cs, t, s, m), t)] == Cond(t, s, m)
    ensures forall u | u != t :: LastOf(Put(cs, t, s, m), u) == LastOf(cs, u)
  {
    var now := Put(cs, t, s, m);
    var i := if Has(cs, t) then LastOf(cs, t) else |cs|;
    LastOfIs(now, t, i);
    forall u | u != t ensures LastOf(now, u) == LastOf(cs, u) {
      if Has(cs, t) {
        SameTypesSameLast(now, cs, u);
      } else {
        assert now[..|cs|] == cs;
      }
    }
  }

  /** What every history keeps: types stay where they are, the list only grows, by a Terminal
      or a Recoverable entry where there was none, and every other entry is untouched. */
  ghost predicate Kept(was: seq<Cond>, now: seq<Cond>) {
    && |was| <= |now|
    && (forall i :: 0 <= i < |was| ==> now[i].ctype == was[i].ctype)
    && (forall i :: 0 <= i < |was| && i != LastOf(was, TypeTerminal) && i != LastOf(was, TypeRecoverable) ==>
          now[i] == was[i])
    && (forall i :: |was| <= i < |now| ==>
          && (now[i].ctype == TypeTerminal || now[i].ctype == TypeRecoverable)
          && !Has(was, now[i].ctype)
          && LastOf(now, now[i].ctype) == i)
    && (forall i, j :: |was| <= i < j < |now| ==> now[i].ctype != now[j].ctype)
    && (Has(was, TypeTerminal) ==> LastOf(now, TypeTerminal) == LastOf(was, TypeTerminal))
    && (Has(was, TypeRecoverable) ==> LastOf(now, TypeRecoverable) == LastOf(was, TypeRecoverable))
  }

  lemma KeptTransitive(a: seq<Cond>, b: seq<Cond>, c: seq<Cond>)
    requires Kept(a, b) && Kept(b, c)
    ensures Kept(a, c)
  {
  }

  lemma PutKeeps(cs: seq<Cond>, t: ConditionType, s: ConditionStatus, m: Option<Message>)
    requires t == TypeTerminal || t == TypeRecoverable
    ensures Kept(cs, Put(cs, t, s, m))
    ensures IsTrue(Put(cs, t, s, m), t) == (s == ConditionTrue)
    ensures forall u | u != t :: IsTrue(Put(cs, t, s, m), u) == IsTrue(cs, u)
  {
    PutTouches(cs, t, s, m);
  }

  lemma ClearKeeps(cs: seq<Cond>, t: ConditionType)
    requires t == TypeTerminal || t == TypeRecoverable
    ensures Kept(cs, Clear(cs, t))
    ensures !IsTrue(Clear(cs, t), t)
    ensures forall u | u != t :: IsTrue(Clear(cs, t), u) == IsTrue(cs, u)
  {
    PutKeeps(cs, t, ConditionFalse, None);
  }

  /** One outcome: the status of Terminal and Recoverable, the entries left alone, and the shape. */
  lemma UpdatedStep(cs: seq<Cond>, err: Outcome)
    ensures IsTrue(Updated(cs, err), TypeTerminal) == IsTerminalClass(err)
    ensures IsTrue(Updated(cs, err), TypeRecoverable) ==
            if IsTerminalClass(err) then IsTrue(cs, TypeRecoverable) else err.Some?
    ensures Kept(cs, Updated(cs, err))
    ensures ReportsUpdate(cs, err) || Updated(cs, err) == cs
  {
    if IsTerminalClass(err) {
      PutKeeps(cs, TypeTerminal, ConditionTrue, Some(FromError(err.value)));
    } else {
      var cleared := Clear(cs, TypeTerminal);
      ClearKeeps(cs, TypeTerminal);
      if err.Some? {
        PutKeeps(cleared, TypeRecoverable, ConditionTrue, Some(FromError(err.value)));
      } else {
        ClearKeeps(cleared, TypeRecoverable);
      }
      KeptTransitive(cs, cleared, Updated(cs, err));
    }
  }

  lemma {:induction false} HistoryKeeps(cs: seq<Cond>, history: seq<Outcome>)
    ensures Kept(cs, After(cs, history))
  {
    if |history| == 0 {
    } else {
      var before := history[..|history| - 1];
      HistoryKeeps(cs, before);
      UpdatedStep(After(cs, before), history[|history| - 1]);
      KeptTransitive(cs, After(cs, before), After(cs, history));
    }
  }

  /** No type is ever duplicated: a list with at most one entry of a type keeps at most one. */
  lemma HistoryKeepsUniqueness(cs: seq<Cond>, history: seq<Outcome>, t: ConditionType)
    requires AtMostOne(cs, t)
    ensures AtMostOne(After(cs, history), t)
  {
    HistoryKeeps(cs, history);
  }

  /** After any history, Terminal is True exactly when the last outcome was of the terminal
      class, and Recoverable exactly when the last outcome of any other class was an error.
      Neither needs the list to start without duplicates. */
  lemma {:induction false} HistoryDecidesStatus(cs: seq<Cond>, history: seq<Outcome>)
    ensures |history| > 0 ==>
              (IsTrue(After(cs, history), TypeTerminal) <==> IsTerminalClass(history[|history| - 1]))
    ensures IsTrue(After(cs, history), TypeRecoverable) <==>
            match LastNonTerminal(history)
            case Some(outcome) => outcome.Some?
            case None => IsTrue(cs, TypeRecoverable)
  {
    if |history| > 0 {
      var before := history[..|history| - 1];
      HistoryDecidesStatus(cs, before);
      UpdatedStep(After(cs, before), history[|history| - 1]);
    }
  }

  /** The entry of type t a reader goes by, if there is one. */
  function Entry(cs: seq<Cond>, t: ConditionType): Option<Cond> {
    if Has(cs, t) then Some(cs[LastOf(cs, t)]) else None
  }

  lemma PutEntryIs(cs: seq<Cond>, t: ConditionType, s: ConditionStatus, m: Option<Message>, u: ConditionType)
    ensures Entry(Put(cs, t, s, m), u) == if u == t then Some(Cond(t, s, m)) else Entry(cs, u)
  {
    PutTouches(cs, t, s, m);
  }

  lemma ClearEntryIs(cs: seq<Cond>, t: ConditionType, u: ConditionType)
    ensures Entry(Clear(cs, t), u) == if u == t && Has(cs, t) then Some(Cond(t, ConditionFalse, None)) else Entry(cs, u)
  {
    PutEntryIs(cs, t, ConditionFalse, None, u);
  }

  /** Both entries after one outcome, messages included: a True entry carries the outcome's message,
      a cleared one carries none, and a terminal outcome leaves Recoverable alone. */
  lemma EntriesAfterUpdate(cs: seq<Cond>, err: Outcome)
    ensures Entry(Updated(cs, err), TypeTerminal) ==
            if IsTerminalClass(err) then Some(Cond(TypeTerminal, ConditionTrue, Some(FromError(err.value))))
            else if Has(cs, TypeTerminal) then Some(Cond(TypeTerminal, ConditionFalse, None))
            else None
    ensures Entry(Updated(cs, err), TypeRecoverable) ==
            if IsTerminalClass(err) then Entry(cs, TypeRecoverable)
            else if err.Some? then Some(Cond(TypeRecoverable, ConditionTrue, Some(FromError(err.value))))
            else if Has(cs, TypeRecoverable) then Some(Cond(TypeRecoverable, ConditionFalse, None))
            else None
  {
    var cleared := Clear(cs, TypeTerminal);
    if IsTerminalClass(err) {
      PutEntryIs(cs, TypeTerminal, ConditionTrue, Some(FromError(err.value)), TypeTerminal);
      PutEntryIs(cs, TypeTerminal, ConditionTrue, Some(FromError(err.value)), TypeRecoverable);
    } else {
      ClearEntryIs(cs, TypeTerminal, TypeTerminal);
      ClearEntryIs(cs, TypeTerminal, TypeRecoverable);
      if err.Some? {
        PutEntryIs(cleared, TypeRecoverable, ConditionTrue, Some(FromError(err.value)), TypeTerminal);
        PutEntryIs(cleared, TypeRecoverable, ConditionTrue, Some(FromError(err.value)), TypeRecoverable);
      } else {
        ClearEntryIs(cleared, TypeRecoverable, TypeTerminal);
        ClearEntryIs(cleared, TypeRecoverable, TypeRecoverable);
      }
    }
  }

  /** Where every error is filed: under Terminal or under Recoverable, with its message, by its chain. */
  lemma ErrorsAreFiled(cs: seq<Cond>, layers: seq<bool>, leaf: Error)
    requires IsLeaf(leaf)
    ensures var e := Chain(layers, leaf);
            var now := Updated(cs, Some(e));
            if TerminalChain(layers, leaf) then
              && Entry(now, TypeTerminal) == Some(Cond(TypeTerminal, ConditionTrue, Some(FromError(e))))
              && Entry(now, TypeRecoverable) == Entry(cs, TypeRecoverable)
            else
              && Entry(now, TypeRecoverable) == Some(Cond(TypeRecoverable, ConditionTrue, Some(FromError(e))))
              && !IsTrue(now, TypeTerminal)
  {
    TerminalClassExactly(layers, leaf);
    EntriesAfterUpdate(cs, Some(Chain(layers, leaf)));
  }

  /** An update is reported exactly for an error, or when an entry of one of the three types is there. */
  lemma ReportsExactly(cs: seq<Cond>, err: Outcome)
    ensures ReportsUpdate(cs, err) <==>
            || err.Some?
            || exists i :: && 0 <= i < |cs|
                           && (cs[i].ctype == TypeTerminal || cs[i].ctype == TypeRecoverable ||
                               cs[i].ctype == TypeResourceSynced)
  {
    var t, r, y := LastOf(cs, TypeTerminal), LastOf(cs, TypeRecoverable), LastOf(cs, TypeResourceSynced);
    assert t >= 0 ==> cs[t].ctype == TypeTerminal;
    assert r >= 0 ==> cs[r].ctype == TypeRecoverable;
    assert y >= 0 ==> cs[y].ctype == TypeResourceSynced;
  }

  /** Terminal and Recoverable are not exclusive: a recoverable error followed by a terminal one leaves both True. */
  lemma BothCanBeTrue()
    ensures var h := [Some(Other("throttled")), Some(ApiError("InvalidInputException"))];
            IsTrue(After([], h), TypeTerminal) && IsTrue(After([], h), TypeRecoverable)
  {
    var h: seq<Outcome> := [Some(Other("throttled")), Some(ApiError("InvalidInputException"))];
    HistoryDecidesStatus([], h);
    assert h[..1] == [Some(Other("throttled"))];
    assert LastNonTerminal(h[..1]) == Some(h[0]);
  }

  /** `onError` scans every entry, so it answers Terminal exactly when the error is of the terminal
      class or a Terminal entry before the last one already says True; with at most one Terminal
      entry only the first reason is left. */
  lemma AnyTerminalAfterUpdate(cs: seq<Cond>, err: Outcome)
    ensures AnyTrue(Updated(cs, err), TypeTerminal) <==> IsTerminalClass(err) || BuriedTrue(cs, TypeTerminal)
    ensures AtMostOne(cs, TypeTerminal) ==> !BuriedTrue(cs, TypeTerminal)
  {
    UpdatedStep(cs, err);
    var now := Updated(cs, err);
    var l := LastOf(now, TypeTerminal);
    if IsTerminalClass(err) {
      assert now[l].status == ConditionTrue;
    } else {
      assert l >= 0 ==> now[l].status != ConditionTrue;
      if BuriedTrue(cs, TypeTerminal) {
        var i :| 0 <= i < LastOf(cs, TypeTerminal) && cs[i].ctype == TypeTerminal && cs[i].status == ConditionTrue;
        assert now[i] == cs[i];
      }
      if AnyTrue(now, TypeTerminal) {
        var i :| 0 <= i < |now| && now[i].ctype == TypeTerminal && now[i].status == ConditionTrue;
        assert i < l;
        assert i < |cs| && now[i] == cs[i];
      }
    }
  }

  /** The error `onError` hands back for a resource with this list. */
  function ErrorAfter(cs: seq<Cond>, err: Error): Error {
    if IsTerminalClass(Some(err)) || BuriedTrue(cs, TypeTerminal) then Terminal else err
  }

  /** With at most one Terminal entry, `onError` answers Terminal for the terminal chains and hands back every
      other error as it is. */
  lemma ErrorsAreReturned(cs: seq<Cond>, layers: seq<bool>, leaf: Error)
    requires IsLeaf(leaf) && AtMostOne(cs, TypeTerminal)
    ensures ErrorAfter(cs, Chain(layers, leaf)) == if TerminalChain(layers, leaf) then Terminal else Chain(layers, leaf)
  {
    TerminalClassExactly(layers, leaf);
    AnyTerminalAfterUpdate(cs, Some(Chain(layers, leaf)));
  }

  lemma ErrorFromScan(cs: seq<Cond>, err: Error)
    ensures ErrorAfter(cs, err) == if AnyTrue(Updated(cs, Some(err)), TypeTerminal) then Terminal else err
  {
    AnyTerminalAfterUpdate(cs, Some(err));
  }

  /** "Not found" reaches the caller of a read exactly when no Terminal entry before the last says True;
      lists with at most one Terminal entry have none. */
  lemma NotFoundGetsThrough(cs: seq<Cond>)
    ensures ErrorAfter(cs, NotFound) == NotFound <==> !BuriedTrue(cs, TypeTerminal)
    ensures AtMostOne(cs, TypeTerminal) ==> ErrorAfter(cs, NotFound) == NotFound
  {
    AnyTerminalAfterUpdate(cs, Some(NotFound));
  }

  /** Two Terminal entries, the first of them True, hide "not found". */
  lemma BuriedTerminalHidesNotFound()
    ensures var cs := [Cond(TypeTerminal, ConditionTrue, None), Cond(TypeTerminal, ConditionFalse, None)];
            ErrorAfter(cs, NotFound) == Terminal
  {
    var cs := [Cond(TypeTerminal, ConditionTrue, None), Cond(TypeTerminal, ConditionFalse, None)];
    LastOfIs(cs, TypeTerminal, 1);
    assert cs[0].status == ConditionTrue;
  }

  // ---------- the runtime's condition helpers ----------

  function FirstOf(cs: seq<Cond>, t: ConditionType): (i: nat)
    ensures i <= |cs|
    ensures i < |cs| ==> cs[i].ctype == t
    ensures forall j :: 0 <= j < i ==> cs[j].ctype != t
  {
    if |cs| == 0 || cs[0].ctype == t then 0 else 1 + FirstOf(cs[1..], t)
  }

  function PutFirst(cs: seq<Cond>, t: ConditionType, s: ConditionStatus, m: Option<Message>): seq<Cond> {
    var i := FirstOf(cs, t);
    if i == |cs| then cs + [Cond(t, s, m)] else cs[i := Cond(t, s, m)]
  }

  /** The helper's effect: the first entry of the type, appended if there was none, and no other. */
  lemma PutFirstSays(cs: seq<Cond>, t: ConditionType, s: ConditionStatus, m: Option<Message>)
    ensures var now := PutFirst(cs, t, s, m);
            var i := FirstOf(now, t);
            && i == FirstOf(cs, t) && i < |now| && now[i] == Cond(t, s, m)
            && |now| == (if i < |cs| then |cs| else |cs| + 1)
            && (forall j | 0 <= j < |cs| && j != i :: now[j] == cs[j])
            && (forall u | u != t && FirstOf(cs, u) < |cs| :: FirstOf(now, u) == FirstOf(cs, u))
  {
    var now := PutFirst(cs, t, s, m);
    FirstOfIs(now, t, FirstOf(cs, t));
    forall u | u != t && FirstOf(cs, u) < |cs| ensures FirstOf(now, u) == FirstOf(cs, u) {
      FirstOfIs(now, u, FirstOf(cs, u));
    }
  }

  lemma FirstOfIs(cs: seq<Cond>, t: ConditionType, i: nat)
    requires i <= |cs| && (i < |cs| ==> cs[i].ctype == t)
    requires forall j :: 0 <= j < i ==> cs[j].ctype != t
    ensures FirstOf(cs, t) == i
  {
  }
}
