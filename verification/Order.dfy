/** Orders: strings, and stable sorting on an integer key. */
module Order {

  predicate Less(a: string, b: string) {
    b != "" && (a == "" || a[0] < b[0] || (a[0] == b[0] && Less(a[1..], b[1..])))
  }

  lemma {:induction false} LessIsTotal(a: string, b: string)
    ensures Less(a, b) || a == b || Less(b, a)
    ensures !(Less(a, b) && Less(b, a))
    ensures !Less(a, a)
  {
    if a != "" && b != "" {
      LessIsTotal(a[1..], b[1..]);
      if a[0] == b[0] && a[1..] == b[1..] {
        assert a == [a[0]] + a[1..];
      }
    }
    if a != "" {
      LessIsTotal(a[1..], a[1..]);
    }
  }

  lemma {:induction false} LessIsTransitive(a: string, b: string, c: string)
    requires Less(a, b) && Less(b, c)
    ensures Less(a, c)
  {
    if a != "" {
      if a[0] == b[0] && b[0] == c[0] {
        LessIsTransitive(a[1..], b[1..], c[1..]);
      }
    }
  }

  /** At the first place where the names differ `a` has ended, or has the smaller letter. */
  ghost predicate AlphabeticallyBefore(a: string, b: string) {
    exists n: nat :: n <= |a| && n < |b| && a[..n] == b[..n] && (n == |a| || a[n] < b[n])
  }

  lemma {:induction false} LessIsAlphabetical(a: string, b: string)
    ensures Less(a, b) <==> AlphabeticallyBefore(a, b)
  {
    if a == "" || b == "" || a[0] != b[0] {
      if Less(a, b) {
        assert a[..0] == b[..0];
      }
      forall n: nat | 0 < n <= |a| && n < |b| && a[0] != b[0] ensures a[..n] != b[..n] {
        assert a[..n][0] != b[..n][0];
      }
    } else {
      LessIsAlphabetical(a[1..], b[1..]);
      if n: nat :| n <= |a[1..]| && n < |b[1..]| && a[1..][..n] == b[1..][..n]
                   && (n == |a[1..]| || a[1..][n] < b[1..][n]) {
        assert a[..n + 1] == [a[0]] + a[1..][..n] == b[..n + 1];
      }
      if n: nat :| n <= |a| && n < |b| && a[..n] == b[..n] && (n == |a| || a[n] < b[n]) {
        assert a[1..][..n - 1] == a[..n][1..] == b[1..][..n - 1];
      }
    }
  }

  predicate SortedOn<T>(key: T -> int, xs: seq<T>) {
    forall i, j :: 0 <= i < j < |xs| ==> key(xs[i]) <= key(xs[j])
  }

  /** Where a stable sort puts `x`: after every element whose key is not larger. */
  function Place<T>(key: T -> int, x: T, xs: seq<T>): (k: nat)
    ensures k <= |xs|
    ensures k > 0 ==> key(xs[k - 1]) <= key(x)
    ensures forall i :: k <= i < |xs| ==> key(x) < key(xs[i])
  {
    if xs == [] then 0
    else
      var n := |xs| - 1;
      if key(xs[n]) <= key(x) then n + 1 else Place(key, x, xs[..n])
  }

  function InsertAt<T>(x: T, xs: seq<T>, k: nat): seq<T>
    requires k <= |xs|
  {
    xs[..k] + [x] + xs[k..]
  }

  function InsertOn<T>(key: T -> int, x: T, xs: seq<T>): (r: seq<T>)
    ensures |r| == |xs| + 1
    ensures SortedOn(key, xs) ==> SortedOn(key, r)
  {
    InsertAt(x, xs, Place(key, x, xs))
  }

  predicate AllDistinct<T(==)>(xs: seq<T>) {
    forall i, j :: 0 <= i < j < |xs| ==> xs[i] != xs[j]
  }

  lemma InsertMembers<T>(x: T, xs: seq<T>, k: nat)
    requires k <= |xs|
    ensures multiset(InsertAt(x, xs, k)) == multiset(xs) + multiset{x}
  {
    assert xs == xs[..k] + xs[k..];
  }

  lemma InsertDistinct<T>(x: T, xs: seq<T>, k: nat)
    requires k <= |xs| && AllDistinct(xs) && x !in xs
    ensures AllDistinct(InsertAt(x, xs, k))
  {
    var r := InsertAt(x, xs, k);
    forall i, j | 0 <= i < j < |r| ensures r[i] != r[j] {
      var i' := if i < k then i else i - 1;
      var j' := if j < k then j else j - 1;
      if i == k {
        assert r[j] == xs[j'];
      } else if j == k {
        assert r[i] == xs[i'];
      } else {
        assert r[i] == xs[i'] && r[j] == xs[j'];
      }
    }
  }

  // ---------------------------------------------------------------------------
  // Oldest first
  // ---------------------------------------------------------------------------

  /** `xs` lists the members of `from`, each once, by age. */
  ghost predicate ListsByAge<T>(xs: seq<T>, from: set<T>, age: map<T, nat>) {
    && (forall k :: 0 <= k < |xs| ==> xs[k] in from && xs[k] in age)
    && (forall x :: x in from ==> x in xs)
    && (forall k, l :: 0 <= k < l < |xs| ==> xs[k] != xs[l] && age[xs[k]] <= age[xs[l]])
  }

  method Oldest<T(==)>(from: set<T>, age: map<T, nat>) returns (x: T)
    requires from != {} && from <= age.Keys
    ensures x in from && forall y :: y in from ==> age[x] <= age[y]
  {
    x :| x in from;
    var rest := from - {x};
    while rest != {}
      invariant x in from && rest <= from && forall y :: y in from - rest ==> age[x] <= age[y]
      decreases |rest|
    {
      var y :| y in rest;
      if age[y] < age[x] {
        x := y;
      }
      rest := rest - {y};
    }
  }

  method OldestFirst<T(==)>(from: set<T>, age: map<T, nat>) returns (xs: seq<T>)
    requires from <= age.Keys
    ensures ListsByAge(xs, from, age)
  {
    xs := [];
    var left := from;
    while left != {}
      invariant left <= from && ListsByAge(xs, from - left, age)
      invariant forall k, y :: 0 <= k < |xs| && y in left ==> age[xs[k]] <= age[y]
      decreases |left|
    {
      var x := Oldest(left, age);
      xs, left := xs + [x], left - {x};
    }
  }
}
