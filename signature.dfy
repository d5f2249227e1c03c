/**
 * The WeChat Official Account server-verification check `checkSignature`
 * (webot.js:156-167): the configured token, the timestamp and the nonce are
 * sorted with JavaScript's default `Array.prototype.sort`, joined with no
 * separator, hashed with SHA-1 and the hex digest compared with the given
 * signature. SHA-1 is not modelled: the digest function is a parameter.
 */
module Signature {
  import opened Wrappers

  /**
   * The default sort order of JavaScript on strings: lexicographic, a proper
   * prefix before its extensions.
   */
  predicate LexLe(a: string, b: string)
    decreases |a|
  {
    a == [] || (b != [] && (a[0] < b[0] || (a[0] == b[0] && LexLe(a[1..], b[1..]))))
  }

  lemma {:induction false} LexLeReflexive(a: string)
    ensures LexLe(a, a)
    decreases |a|
  {
    if a != [] {
      LexLeReflexive(a[1..]);
    }
  }

  lemma {:induction false} LexLeTotal(a: string, b: string)
    ensures LexLe(a, b) || LexLe(b, a)
    decreases |a|
  {
    if a != [] && b != [] && a[0] == b[0] {
      LexLeTotal(a[1..], b[1..]);
    }
  }

  lemma {:induction false} LexLeAntisymmetric(a: string, b: string)
    requires LexLe(a, b) && LexLe(b, a)
    ensures a == b
    decreases |a|
  {
    if a != [] {
      LexLeAntisymmetric(a[1..], b[1..]);
      assert a == [a[0]] + a[1..] && b == [b[0]] + b[1..];
    }
  }

  lemma {:induction false} LexLeTransitive(a: string, b: string, c: string)
    requires LexLe(a, b) && LexLe(b, c)
    ensures LexLe(a, c)
    decreases |a|
  {
    if a != [] && a[0] == b[0] && b[0] == c[0] {
      LexLeTransitive(a[1..], b[1..], c[1..]);
    }
  }

  predicate Sorted(s: seq<string>) {
    forall i, j :: 0 <= i < j < |s| ==> LexLe(s[i], s[j])
  }

  lemma SortedTail(s: seq<string>)
    requires s != [] && Sorted(s)
    ensures Sorted(s[1..])
  {
  }

  /** `y` is below every element of `s`. */
  predicate Below(y: string, s: seq<string>) {
    forall j :: 0 <= j < |s| ==> LexLe(y, s[j])
  }

  lemma SortedCons(y: string, s: seq<string>)
    requires Below(y, s) && Sorted(s)
    ensures Sorted([y] + s)
  {
  }

  lemma BelowSorted(x: string, s: seq<string>)
    requires Sorted(s) && s != [] && LexLe(x, s[0])
    ensures Below(x, s)
  {
    forall j | 0 < j < |s| ensures LexLe(x, s[j]) {
      LexLeTransitive(x, s[0], s[j]);
    }
  }

  lemma BelowSameMultiset(y: string, s: seq<string>, x: string, r: seq<string>)
    requires Below(y, s) && LexLe(y, x)
    requires multiset(r) == multiset(s) + multiset{x}
    ensures Below(y, r)
  {
    forall j | 0 <= j < |r| ensures LexLe(y, r[j]) {
      assert r[j] in multiset(r);
      if r[j] != x {
        assert r[j] in multiset(s);
        var k :| 0 <= k < |s| && s[k] == r[j];
      }
    }
  }

  /** Inserts `x` into the sorted `s` before the first element not below it. */
  function Insert(x: string, s: seq<string>): (r: seq<string>)
    requires Sorted(s)
    ensures Sorted(r)
    ensures multiset(r) == multiset(s) + multiset{x}
  {
    if s == [] then [x]
    else if LexLe(x, s[0]) then
      BelowSorted(x, s);
      SortedCons(x, s);
      [x] + s
    else
      LexLeTotal(x, s[0]);
      SortedTail(s);
      var rest := Insert(x, s[1..]);
      LexLeReflexive(s[0]);
      BelowSorted(s[0], s);
      assert Below(s[0], s[1..]);
      BelowSameMultiset(s[0], s[1..], x, rest);
      SortedCons(s[0], rest);
      assert s == [s[0]] + s[1..];
      [s[0]] + rest
  }

  /** An insertion sort: the sorted arrangement of `s`. */
  function Sort(s: seq<string>): (r: seq<string>)
    ensures Sorted(r)
    ensures multiset(r) == multiset(s)
  {
    if s == [] then []
    else
      assert s == [s[0]] + s[1..];
      Insert(s[0], Sort(s[1..]))
  }

  /** The first element of a sorted non-empty sequence is its least element. */
  lemma SortedHeadLeast(s: seq<string>, x: string)
    requires Sorted(s) && x in multiset(s)
    ensures LexLe(s[0], x)
  {
    var i :| 0 <= i < |s| && s[i] == x;
    if i == 0 {
      LexLeReflexive(x);
    }
  }

  lemma TailMultiset(s: seq<string>)
    requires s != []
    ensures multiset(s[1..]) == multiset(s) - multiset{s[0]}
  {
    assert s == [s[0]] + s[1..];
  }

  /** Two sorted arrangements of one multiset start alike. */
  lemma SameHead(a: seq<string>, b: seq<string>)
    requires Sorted(a) && Sorted(b) && a != []
    requires multiset(a) == multiset(b)
    ensures b != [] && a[0] == b[0]
    ensures multiset(a[1..]) == multiset(b[1..])
  {
    assert a[0] in multiset(a);
    assert b != [];
    assert b[0] in multiset(b);
    SortedHeadLeast(b, a[0]);
    SortedHeadLeast(a, b[0]);
    LexLeAntisymmetric(a[0], b[0]);
    TailMultiset(a);
    TailMultiset(b);
  }

  /**
   * A sequence of strings has one sorted arrangement only, so every correct
   * sort (V8's among them) yields the same result as `Sort`.
   */
  lemma {:induction false} SortedUnique(a: seq<string>, b: seq<string>)
    requires Sorted(a) && Sorted(b)
    requires multiset(a) == multiset(b)
    ensures a == b
    decreases |a|
  {
    if a == [] {
      assert |b| == |multiset(b)| == 0;
    } else {
      SameHead(a, b);
      SortedTail(a);
      SortedTail(b);
      SortedUnique(a[1..], b[1..]);
      assert a == [a[0]] + a[1..] && b == [b[0]] + b[1..];
    }
  }

  /** `Array.prototype.join('')`. */
  function Join(parts: seq<string>): string {
    if parts == [] then "" else parts[0] + Join(parts[1..])
  }

  /**
   * The three parts `[WECHAT_TOKEN, timestamp, nonce]`. A missing query
   * parameter is `undefined`: the sort moves it to the end and the join
   * renders it as nothing, which is the text the empty string gives at the
   * front of the sorted order, so it is taken as "".
   */
  function Parts(token: string, timestamp: Option<string>, nonce: Option<string>): seq<string> {
    [token, timestamp.GetOr(""), nonce.GetOr("")]
  }

  /** `checkSignature(signature, timestamp, nonce)`, with the configured token and the digest as inputs. */
  function CheckSignature(
    sha1: string -> string, token: string,
    signature: Option<string>, timestamp: Option<string>, nonce: Option<string>): bool
  {
    signature == Some(sha1(Join(Sort(Parts(token, timestamp, nonce)))))
  }

  /**
   * The check accepts exactly the digest of the three parts joined in
   * lexicographic order, whichever sorted arrangement `p` names that order.
   */
  lemma CheckSignatureMeaning(
    sha1: string -> string, token: string,
    signature: Option<string>, timestamp: Option<string>, nonce: Option<string>,
    p: seq<string>)
    requires Sorted(p) && multiset(p) == multiset(Parts(token, timestamp, nonce))
    ensures CheckSignature(sha1, token, signature, timestamp, nonce) <==> signature == Some(sha1(Join(p)))
  {
    SortedUnique(p, Sort(Parts(token, timestamp, nonce)));
  }

  /** Swapping the timestamp and the nonce never changes the verdict. */
  lemma CheckSignatureSymmetric(
    sha1: string -> string, token: string,
    signature: Option<string>, timestamp: Option<string>, nonce: Option<string>)
    ensures CheckSignature(sha1, token, signature, timestamp, nonce)
         == CheckSignature(sha1, token, signature, nonce, timestamp)
  {
    SwapLastTwo(token, timestamp.GetOr(""), nonce.GetOr(""));
    SortDependsOnMultiset(Parts(token, timestamp, nonce), Parts(token, nonce, timestamp));
  }

  lemma SwapLastTwo(x: string, y: string, z: string)
    ensures multiset([x, y, z]) == multiset([x, z, y])
  {
    calc {
      multiset([x, y, z]);
      multiset{x} + multiset{y} + multiset{z};
      multiset([x, z, y]);
    }
  }

  /** `Sort` depends only on which strings, with repetitions, it is given. */
  lemma SortDependsOnMultiset(p: seq<string>, q: seq<string>)
    requires multiset(p) == multiset(q)
    ensures Sort(p) == Sort(q)
  {
    SortedUnique(Sort(p), Sort(q));
  }
}
