/**
 * The visitor's `repositories` field is a Kotlin `mutableSetOf<String>()`, a
 * LinkedHashSet: adding keeps the first-insertion order and ignores a value
 * that is already there. It is modelled as a duplicate-free sequence.
 */
module RepositorySet {

  predicate NoDuplicates(s: seq<string>) {
    forall i, j :: 0 <= i < j < |s| ==> s[i] != s[j]
  }

  /** `repositories.add(url)`. */
  function Add(repos: seq<string>, url: string): (r: seq<string>)
    ensures url in r
    ensures forall x :: x in r <==> x in repos || x == url
    ensures repos <= r && |r| <= |repos| + 1
    ensures url in repos ==> r == repos
    ensures NoDuplicates(repos) ==> NoDuplicates(r)
  {
    if url in repos then repos else repos + [url]
  }

  /** Adding every URL of `urls`, in order. */
  function AddAll(repos: seq<string>, urls: seq<string>): (r: seq<string>)
    ensures forall x :: x in r <==> x in repos || x in urls
    ensures repos <= r
    ensures NoDuplicates(repos) ==> NoDuplicates(r)
  {
    if urls == [] then repos
    else Add(AddAll(repos, urls[..|urls| - 1]), urls[|urls| - 1])
  }

  /** Adding URLs that are all present already changes nothing. */
  lemma {:induction false} AddAllAbsorbed(repos: seq<string>, urls: seq<string>)
    requires forall x :: x in urls ==> x in repos
    ensures AddAll(repos, urls) == repos
  {
    if urls != [] {
      var front := urls[..|urls| - 1];
      assert forall x :: x in front ==> x in urls;
      AddAllAbsorbed(repos, front);
      assert urls[|urls| - 1] in urls;
    }
  }

  /** Adding `u` and then `v` is adding `u + v`. */
  lemma {:induction false} AddAllConcat(repos: seq<string>, u: seq<string>, v: seq<string>)
    ensures AddAll(AddAll(repos, u), v) == AddAll(repos, u + v)
  {
    if v == [] {
      assert u + v == u;
    } else {
      var front := v[..|v| - 1];
      AddAllConcat(repos, u, front);
      assert (u + v)[..|u + v| - 1] == u + front;
      assert (u + v)[|u + v| - 1] == v[|v| - 1];
    }
  }

  /** A second pass over the same URLs leaves the set as the first pass left it. */
  lemma AddAllTwice(repos: seq<string>, urls: seq<string>)
    ensures AddAll(AddAll(repos, urls), urls) == AddAll(repos, urls)
  {
    AddAllAbsorbed(AddAll(repos, urls), urls);
  }

  /** The set built from nothing by adding `urls` in order. */
  function Distinct(urls: seq<string>): (d: seq<string>)
    ensures NoDuplicates(d)
    ensures forall x :: x in d <==> x in urls
  {
    AddAll([], urls)
  }

  /** The position of the first occurrence of `x` in `s`. */
  function FirstIndex(s: seq<string>, x: string): (k: nat)
    requires x in s
    ensures k < |s| && s[k] == x && x !in s[..k]
  {
    if s[0] == x then 0 else 1 + FirstIndex(s[1..], x)
  }

  lemma {:induction false} FirstIndexAppend(s: seq<string>, y: string, x: string)
    requires x in s
    ensures FirstIndex(s + [y], x) == FirstIndex(s, x)
  {
    if s[0] != x {
      assert (s + [y])[1..] == s[1..] + [y];
      FirstIndexAppend(s[1..], y, x);
    }
  }

  lemma FirstIndexOfNew(s: seq<string>, x: string)
    requires x !in s
    ensures FirstIndex(s + [x], x) == |s|
  {
    var k := FirstIndex(s + [x], x);
    assert (s + [x])[..|s|] == s;
  }

  /**
   * The set keeps first-insertion order: of two URLs in the result, the one
   * listed first is the one whose first occurrence in `urls` comes first.
   */
  lemma {:induction false} DistinctFirstSeenOrder(urls: seq<string>)
    ensures var d := Distinct(urls);
            forall i, j :: 0 <= i < j < |d| ==> FirstIndex(urls, d[i]) < FirstIndex(urls, d[j])
  {
    if urls != [] {
      var front := urls[..|urls| - 1];
      var x := urls[|urls| - 1];
      assert urls == front + [x];
      DistinctFirstSeenOrder(front);
      var d0 := Distinct(front);
      var d := Distinct(urls);
      assert d == Add(d0, x);
      forall y | y in d0 ensures FirstIndex(urls, y) == FirstIndex(front, y) {
        FirstIndexAppend(front, x, y);
      }
      if x !in front {
        FirstIndexOfNew(front, x);
        assert d == d0 + [x];
      }
    }
  }
}
