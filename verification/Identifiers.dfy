/** The identifiers the controllers print: ARNs of databases and jobs, and the key of the
    resource-manager cache. */
module Identifiers {

  /** `databaseARN` in pkg/resource/database/hooks.go. */
  function DatabaseARN(partition: string, region: string, account: string, name: string): string {
    "arn:" + partition + ":glue:" + region + ":" + account + ":database/" + name
  }

  /** `jobARN` in pkg/resource/job/hooks.go, which fixes the partition. */
  function JobARN(region: string, account: string, name: string): string {
    "arn:aws:glue:" + region + ":" + account + ":job/" + name
  }

  /** The cache key of `ManagerFor` in pkg/resource/database/manager_factory.go. */
  function ManagerKey(account: string, region: string, roleARN: string): string {
    account + "/" + region + "/" + roleARN
  }

  /** The printed forms on an example. */
  lemma Printed()
    ensures DatabaseARN("p", "r", "1", "d") == "arn:p:glue:r:1:database/d"
    ensures JobARN("r", "1", "j") == "arn:aws:glue:r:1:job/j"
    ensures ManagerKey("1", "r", "arn:x/y") == "1/r/arn:x/y"
  {
    assert "1" + "/" + "r" == "1/r";
  }

  /** How often `sep` occurs in s. */
  function Count(sep: char, s: string): nat {
    if |s| == 0 then 0 else Count(sep, s[1..]) + if s[0] == sep then 1 else 0
  }

  lemma {:induction false} CountIsZero(sep: char, s: string)
    ensures Count(sep, s) == 0 <==> sep !in s
  {
    if |s| > 0 {
      CountIsZero(sep, s[1..]);
      assert s == [s[0]] + s[1..];
    }
  }

  lemma {:induction false} CountAppends(sep: char, s: string, t: string)
    ensures Count(sep, s + t) == Count(sep, s) + Count(sep, t)
  {
    if |s| == 0 {
      assert s + t == t;
    } else {
      assert (s + t)[1..] == s[1..] + t;
      CountAppends(sep, s[1..], t);
    }
  }

  /** Two equal strings, each cut at one of its `sep`s, with as many of them before the cut, agree on
      both sides of it. */
  lemma {:induction false} SplitAtSame(sep: char, a: string, s: string, b: string, t: string)
    requires Count(sep, a) == Count(sep, b)
    requires a + [sep] + s == b + [sep] + t
    ensures a == b && s == t
    decreases |a|
  {
    var x, y := a + [sep] + s, b + [sep] + t;
    assert x[0] == (if |a| > 0 then a[0] else sep) && y[0] == (if |b| > 0 then b[0] else sep);
    if |a| > 0 && |b| > 0 {
      assert x[1..] == a[1..] + [sep] + s && y[1..] == b[1..] + [sep] + t;
      SplitAtSame(sep, a[1..], s, b[1..], t);
      assert a == [a[0]] + a[1..] && b == [b[0]] + b[1..];
    } else if |a| == 0 && |b| == 0 {
      assert s == x[1..] && t == y[1..];
    }
  }

  lemma SamePrefix(p: string, s: string, t: string)
    requires p + s == p + t
    ensures s == t
  {
    assert s == (p + s)[|p|..] && t == (p + t)[|p|..];
  }

  function Tail(r: string, a: string, last: string): string {
    r + [':'] + (a + [':'] + last)
  }

  /** A database ARN cut at its colons. */
  lemma DatabaseARNFields(p: string, r: string, a: string, n: string)
    ensures DatabaseARN(p, r, a, n) == "arn:" + (p + [':'] + ("glue:" + Tail(r, a, "database/" + n)))
  {
  }

  lemma JobARNFields(r: string, a: string, n: string)
    ensures JobARN(r, a, n) == "arn:" + ("aws" + [':'] + ("glue:" + Tail(r, a, "job/" + n)))
  {
  }

  lemma SameTail(r: string, a: string, last: string, r': string, a': string, last': string)
    requires Count(':', r) == Count(':', r') && Count(':', a) == Count(':', a')
    requires Tail(r, a, last) == Tail(r', a', last')
    ensures r == r' && a == a' && last == last'
  {
    SplitAtSame(':', r, a + [':'] + last, r', a' + [':'] + last');
    SplitAtSame(':', a, last, a', last');
  }

  lemma SameHead(p: string, tail: string, p': string, tail': string)
    requires Count(':', p) == Count(':', p')
    requires "arn:" + (p + [':'] + ("glue:" + tail)) == "arn:" + (p' + [':'] + ("glue:" + tail'))
    ensures p == p' && tail == tail'
  {
    SamePrefix("arn:", p + [':'] + ("glue:" + tail), p' + [':'] + ("glue:" + tail'));
    SplitAtSame(':', p, "glue:" + tail, p', "glue:" + tail');
    SamePrefix("glue:", tail, tail');
  }

  predicate SameColons(p: string, r: string, a: string, p': string, r': string, a': string) {
    Count(':', p) == Count(':', p') && Count(':', r) == Count(':', r') && Count(':', a) == Count(':', a')
  }

  /** Two databases that share an ARN have the same four parts exactly when their partitions, their
      regions and their accounts have as many colons. */
  lemma DatabaseARNDetermines(
    p: string, r: string, a: string, n: string, p': string, r': string, a': string, n': string)
    requires DatabaseARN(p, r, a, n) == DatabaseARN(p', r', a', n')
    ensures (p == p' && r == r' && a == a' && n == n') <==> SameColons(p, r, a, p', r', a')
  {
    if SameColons(p, r, a, p', r', a') {
      DatabaseARNFields(p, r, a, n);
      DatabaseARNFields(p', r', a', n');
      SameHead(p, Tail(r, a, "database/" + n), p', Tail(r', a', "database/" + n'));
      SameTail(r, a, "database/" + n, r', a', "database/" + n');
      SamePrefix("database/", n, n');
    }
  }

  /** With colon-free partitions, regions and accounts an ARN determines all four of its parts;
      the name is free. */
  lemma DatabaseARNInjective(p: string, r: string, a: string, n: string, p': string, r': string, a': string, n': string)
    requires ':' !in p && ':' !in r && ':' !in a
    requires ':' !in p' && ':' !in r' && ':' !in a'
    requires DatabaseARN(p, r, a, n) == DatabaseARN(p', r', a', n')
    ensures p == p' && r == r' && a == a' && n == n'
  {
    CountIsZero(':', p); CountIsZero(':', p');
    CountIsZero(':', r); CountIsZero(':', r');
    CountIsZero(':', a); CountIsZero(':', a');
    DatabaseARNDetermines(p, r, a, n, p', r', a', n');
  }

  lemma PrefixesCompare(x: string, s: string, y: string, t: string)
    requires x + s == y + t
    ensures x <= y || y <= x
  {
    assert if |x| <= |y| then x == (x + s)[..|x|] == y[..|x|] else y == (y + t)[..|y|] == x[..|y|];
  }

  lemma NamesComeLast(p: string, r: string, a: string, n: string)
    ensures DatabaseARN(p, r, a, n) == DatabaseARN(p, r, a, "") + n
    ensures JobARN(r, a, n) == JobARN(r, a, "") + n
  {
  }

  lemma SharedMeansPrefix(p: string, r: string, a: string, n: string, r': string, a': string, n': string)
    requires DatabaseARN(p, r, a, n) == JobARN(r', a', n')
    ensures DatabaseARN(p, r, a, "") <= JobARN(r', a', "") || JobARN(r', a', "") <= DatabaseARN(p, r, a, "")
  {
    NamesComeLast(p, r, a, n);
    NamesComeLast(p, r', a', n');
    PrefixesCompare(DatabaseARN(p, r, a, ""), n, JobARN(r', a', ""), n');
  }

  /** Some database of one location shares its ARN with some job of another exactly when, of the two
      ARNs without their names, one begins with the other. */
  lemma SharedWithJob(p: string, r: string, a: string, r': string, a': string)
    ensures (exists n, n' :: DatabaseARN(p, r, a, n) == JobARN(r', a', n')) <==>
            DatabaseARN(p, r, a, "") <= JobARN(r', a', "") || JobARN(r', a', "") <= DatabaseARN(p, r, a, "")
  {
    var x, y := DatabaseARN(p, r, a, ""), JobARN(r', a', "");
    if exists n, n' :: DatabaseARN(p, r, a, n) == JobARN(r', a', n') {
      var n, n' :| DatabaseARN(p, r, a, n) == JobARN(r', a', n');
      SharedMeansPrefix(p, r, a, n, r', a', n');
    }
    if x <= y {
      NamesComeLast(p, r, a, y[|x|..]);
      assert DatabaseARN(p, r, a, y[|x|..]) == JobARN(r', a', "");
    } else if y <= x {
      NamesComeLast(p, r', a', x[|y|..]);
      assert DatabaseARN(p, r, a, "") == JobARN(r', a', x[|y|..]);
    }
  }

  /** No database shares an ARN with a job when the colons of their locations agree in number. */
  lemma DatabaseARNIsNoJobARN(p: string, r: string, a: string, n: string, r': string, a': string, n': string)
    requires SameColons(p, r, a, "aws", r', a')
    ensures DatabaseARN(p, r, a, n) != JobARN(r', a', n')
  {
    assert ("database/" + n)[0] == 'd' && ("job/" + n')[0] == 'j';
    if DatabaseARN(p, r, a, n) == JobARN(r', a', n') {
      DatabaseARNFields(p, r, a, n);
      JobARNFields(r', a', n');
      SameHead(p, Tail(r, a, "database/" + n), "aws", Tail(r', a', "job/" + n'));
      SameTail(r, a, "database/" + n, r', a', "job/" + n');
    }
  }

  /** An account with a colon can make a database share the ARN of a job. */
  lemma JobsCollide(r: string, a: string, x: string, y: string)
    ensures DatabaseARN("aws", r, a + ":job/" + x, y) == JobARN(r, a, x + ":database/" + y)
  {
    assert (a + ":job/" + x) + ":database/" + y == a + ":job/" + (x + ":database/" + y);
    var start := "arn:aws:glue:" + r + ":";
    assert DatabaseARN("aws", r, a + ":job/" + x, y) == start + ((a + ":job/" + x) + ":database/" + y);
    assert JobARN(r, a, x + ":database/" + y) == start + (a + ":job/" + (x + ":database/" + y));
  }

  /** A colon can be moved from the region to the account, so that different databases share an ARN. */
  lemma ColonsCollide(p: string, r: string, x: string, a: string, n: string)
    ensures DatabaseARN(p, r + ":" + x, a, n) == DatabaseARN(p, r, x + ":" + a, n)
  {
    assert (r + ":" + x) + ":" + a == r + ":" + (x + ":" + a);
  }

  /** Two triples that share a key have the same account and region, and then the same role ARN too,
      exactly when their accounts and their regions have as many slashes. */
  lemma ManagerKeyDetermines(a: string, r: string, role: string, a': string, r': string, role': string)
    requires ManagerKey(a, r, role) == ManagerKey(a', r', role')
    ensures (a == a' && r == r') <==> (Count('/', a) == Count('/', a') && Count('/', r) == Count('/', r'))
    ensures a == a' && r == r' ==> role == role'
  {
    assert ManagerKey(a, r, role) == a + ['/'] + (r + ['/'] + role);
    assert ManagerKey(a', r', role') == a' + ['/'] + (r' + ['/'] + role');
    if Count('/', a) == Count('/', a') && Count('/', r) == Count('/', r') {
      SplitAtSame('/', a, r + ['/'] + role, a', r' + ['/'] + role');
      SplitAtSame('/', r, role, r', role');
    }
  }

  /** With slash-free accounts and regions a cache key determines account, region and role ARN,
      whatever slashes the role ARN has. */
  lemma ManagerKeyInjective(a: string, r: string, role: string, a': string, r': string, role': string)
    requires '/' !in a && '/' !in r && '/' !in a' && '/' !in r'
    requires ManagerKey(a, r, role) == ManagerKey(a', r', role')
    ensures a == a' && r == r' && role == role'
  {
    CountIsZero('/', a); CountIsZero('/', a');
    CountIsZero('/', r); CountIsZero('/', r');
    ManagerKeyDetermines(a, r, role, a', r', role');
  }

  /** A slash can be moved from the account to the region, so that different triples share a key. */
  lemma SlashesCollide(a: string, x: string, r: string, role: string)
    ensures ManagerKey(a + "/" + x, r, role) == ManagerKey(a, x + "/" + r, role)
  {
    assert (a + "/" + x) + "/" + r == a + "/" + (x + "/" + r);
  }
}
