/** pkg/resource/database/tags.go: conversions between the spec's tag map and the
    hub type `acktags.Tags`, and the two passes that keep AWS-owned tags out of
    the controller's hands. */
module Tags {
  import opened Types

  type Plain = map<string, string>

  const AWS_PREFIX := "aws:"

  predicate IsAWS(k: string) {
    AWS_PREFIX <= k
  }

  /** `acktags.Tags`, a Go map: shared and mutated in place. */
  class AckTags {
    var m: Plain

    constructor ()
      ensures m == map[]
    {
      m := map[];
    }
  }

  // ---------- what the operations compute ----------

  /** The tags a spec field stands for: a nil map has none, a nil value is empty. */
  function TagValues(tags: Option<StringMap>): Plain {
    match tags
    case None => map[]
    case Some(m) => PlainMap(m)
  }

  function WithoutSystemTags(t: Plain, systemTags: seq<string>): Plain {
    map k | k in t && !IsAWS(k) && k !in systemTags :: t[k]
  }

  function AwsPart(t: Plain): Plain {
    map k | k in t && IsAWS(k) :: t[k]
  }

  /** `acktags.Merge(a, b)`: a's entries win. */
  function Merge(a: Plain, b: Plain): Plain {
    b + a
  }

  /** The value mirrorAWSTags leaves in the desired resource. */
  function MirrorTags(desired: Option<StringMap>, latest: Option<StringMap>): StringMap {
    PointerMap(TagValues(desired) + AwsPart(TagValues(latest)))
  }

  /** The value FilterSystemTags leaves in a resource. */
  function FilterTags(tags: Option<StringMap>, systemTags: seq<string>): StringMap {
    PointerMap(WithoutSystemTags(TagValues(tags), systemTags))
  }

  /** The value EnsureTags leaves in a resource. */
  function EnsuredTags(tags: Option<StringMap>, defaults: Plain): StringMap {
    PointerMap(Merge(TagValues(tags), defaults))
  }

  /** `ackcompare.GetTagsDifference(from, to)`, a difference of (key, value) pairs:
      a key whose value changed is both added and removed. */
  function AddedPairs(from: Plain, to: Plain): Plain {
    map k | k in to && !(k in from && from[k] == to[k]) :: to[k]
  }

  function RemovedPairs(from: Plain, to: Plain): Plain {
    AddedPairs(to, from)
  }

  // ---------- the operations ----------

  method ConvertToOrderedACKTags(tags: Option<StringMap>) returns (result: AckTags, keyOrder: seq<string>)
    ensures fresh(result)
    ensures result.m == TagValues(tags)
    ensures keyOrder == []
  {
    result := new AckTags();
    keyOrder := [];
    if tags.None? || |tags.value| == 0 {
      return;
    }
    var m := tags.value;
    var todo := m.Keys;
    while todo != {}
      invariant todo <= m.Keys
      invariant result.m == map k | k in m && k !in todo :: m[k].GetOr("")
      decreases |todo|
    {
      var k :| k in todo;
      if m[k].None? {
        result.m := result.m[k := ""];
      } else {
        result.m := result.m[k := m[k].value];
      }
      todo := todo - {k};
    }
  }

  method FromACKTags(tags: AckTags, keyOrder: seq<string>) returns (result: StringMap)
    ensures result == PointerMap(tags.m)
  {
    result := map[];
    var todo := tags.m.Keys;
    while todo != {}
      invariant todo <= tags.m.Keys
      invariant result == map k | k in tags.m && k !in todo :: Some(tags.m[k])
      decreases |todo|
    {
      var k :| k in todo;
      result := result[k := Some(tags.m[k])];
      todo := todo - {k};
    }
  }

  method IgnoreSystemTags(tags: AckTags, systemTags: seq<string>)
    modifies tags
    ensures tags.m == WithoutSystemTags(old(tags.m), systemTags)
  {
    var todo := tags.m.Keys;
    while todo != {}
      invariant todo <= tags.m.Keys <= old(tags.m.Keys)
      invariant tags.m == map k | k in old(tags.m) && (k in todo || (!IsAWS(k) && k !in systemTags)) :: old(tags.m)[k]
      decreases |todo|
    {
      var k :| k in todo;
      if AWS_PREFIX <= k || k in systemTags {
        tags.m := tags.m - {k};
      }
      todo := todo - {k};
    }
  }

  /** Also right when both arguments are the same map. */
  method SyncAWSTags(a: AckTags, b: AckTags)
    modifies a
    ensures a.m == old(a.m) + AwsPart(old(b.m))
  {
    ghost var was, from := a.m, b.m;
    var todo := b.m.Keys;
    MirroredAtEnds(was, from);
    while todo != {}
      invariant todo <= from.Keys
      invariant b.m == from && a.m == MirroredSoFar(was, from, todo)
      invariant a == b ==> was == from
      decreases |todo|
    {
      var k :| k in todo;
      MirroredStep(was, from, todo, k);
      if AWS_PREFIX <= k {
        a.m := a.m[k := b.m[k]];
      }
      todo := todo - {k};
    }
  }

  /** The target of `syncAWSTags` while the keys `todo` are still to be visited. */
  ghost function MirroredSoFar(was: Plain, from: Plain, todo: set<string>): Plain {
    was + AwsPart(from - todo)
  }

  lemma MirroredAtEnds(was: Plain, from: Plain)
    ensures MirroredSoFar(was, from, from.Keys) == was
    ensures MirroredSoFar(was, from, {}) == was + AwsPart(from)
  {
    assert from - {} == from;
  }

  lemma MirroredStep(was: Plain, from: Plain, todo: set<string>, k: string)
    requires k in todo && todo <= from.Keys
    ensures MirroredSoFar(was, from, todo - {k}) ==
            if IsAWS(k) then MirroredSoFar(was, from, todo)[k := from[k]] else MirroredSoFar(was, from, todo)
    ensures was == from ==> MirroredSoFar(was, from, todo - {k}) == from
  {
  }

  // ---------- properties ----------

  /** To the hub and back is the identity exactly on maps without nil values. */
  lemma TagRoundTrip(m: StringMap)
    ensures PointerMap(TagValues(Some(m))) == m <==> NoNilValues(m)
  {
    PlainThenPointer(m);
  }

  /** A nil map has no tags, and a nil value reads as the empty string. */
  lemma NilTagsRead(tags: Option<StringMap>, k: string)
    ensures k in TagValues(tags) <==> tags.Some? && k in tags.value
    ensures k in TagValues(tags) ==>
              TagValues(tags)[k] == if tags.value[k].Some? then tags.value[k].value else ""
  {
  }

  /** What filtering leaves: every other tag with its value, and nothing else. */
  lemma FilterRemovesExactly(tags: Option<StringMap>, systemTags: seq<string>, k: string)
    ensures var left := TagValues(Some(FilterTags(tags, systemTags)));
            && (k in left <==> k in TagValues(tags) && !("aws:" <= k) && k !in systemTags)
            && (k in left ==> left[k] == TagValues(tags)[k])
  {
    PointerThenPlain(WithoutSystemTags(TagValues(tags), systemTags));
  }

  /** What mirroring leaves at every key: the latest value of an AWS tag the latest resource has, else the
      desired one. */
  lemma MirrorsExactly(desired: Option<StringMap>, latest: Option<StringMap>, k: string)
    ensures var mirrored, d, l := TagValues(Some(MirrorTags(desired, latest))), TagValues(desired), TagValues(latest);
            && (k in mirrored <==> k in d || ("aws:" <= k && k in l))
            && (k in mirrored ==> mirrored[k] == if "aws:" <= k && k in l then l[k] else d[k])
  {
    MirrorValues(desired, latest);
  }

  lemma FilterIdempotent(tags: Option<StringMap>, systemTags: seq<string>)
    ensures FilterTags(Some(FilterTags(tags, systemTags)), systemTags) == FilterTags(tags, systemTags)
  {
    var once := WithoutSystemTags(TagValues(tags), systemTags);
    PointerThenPlain(once);
    assert WithoutSystemTags(once, systemTags) == once;
  }

  /** Mirroring AWS tags into a resource leaves no trace once it is filtered. */
  lemma FilterForgetsMirror(desired: Option<StringMap>, latest: Option<StringMap>, systemTags: seq<string>)
    ensures FilterTags(Some(MirrorTags(desired, latest)), systemTags) == FilterTags(desired, systemTags)
  {
    var mirrored := TagValues(desired) + AwsPart(TagValues(latest));
    PointerThenPlain(mirrored);
    assert WithoutSystemTags(mirrored, systemTags) == WithoutSystemTags(TagValues(desired), systemTags);
  }

  lemma MirrorValues(desired: Option<StringMap>, latest: Option<StringMap>)
    ensures TagValues(Some(MirrorTags(desired, latest))) == TagValues(desired) + AwsPart(TagValues(latest))
  {
    PointerThenPlain(TagValues(desired) + AwsPart(TagValues(latest)));
  }

  /** Every default tag is present afterwards, no tag of the user's own changes value,
      nothing else appears, and a second call changes nothing. */
  lemma EnsureTagsKeepsUserTags(tags: Option<StringMap>, defaults: Plain)
    ensures var t := TagValues(Some(EnsuredTags(tags, defaults)));
            && t.Keys == TagValues(tags).Keys + defaults.Keys
            && (forall k | k in TagValues(tags) :: t[k] == TagValues(tags)[k])
            && (forall k | k in defaults && k !in TagValues(tags) :: t[k] == defaults[k])
    ensures EnsuredTags(Some(EnsuredTags(tags, defaults)), defaults) == EnsuredTags(tags, defaults)
  {
    var t := Merge(TagValues(tags), defaults);
    PointerThenPlain(t);
    assert Merge(t, defaults) == t;
  }
}
