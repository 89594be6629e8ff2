/**
 * The two pure text helpers the visitor applies to token text: Kotlin's
 * `trim('\'')` on a quoted literal, and the `replace(':', '_')` that turns a
 * Maven coordinate into a Bazel label.
 */
module Literals {

  const Quote: char := '\''

  /** The string of `n` single quotes. */
  function Quotes(n: nat): (q: string)
    ensures |q| == n
    ensures forall i :: 0 <= i < n ==> q[i] == Quote
  {
    seq(n, _ => Quote)
  }

  /** Neither the first nor the last character is a single quote. */
  predicate NoBoundaryQuote(s: string) {
    s == [] || (s[0] != Quote && s[|s| - 1] != Quote)
  }

  /** First half of `trim('\'')`: drops every leading quote. */
  function TrimLeading(s: string): (r: string)
    ensures |r| <= |s|
    ensures r == [] || r[0] != Quote
    decreases |s|
  {
    if s != [] && s[0] == Quote then TrimLeading(s[1..]) else s
  }

  /** Second half of `trim('\'')`: drops every trailing quote. */
  function TrimTrailing(s: string): (r: string)
    ensures |r| <= |s|
    ensures r == [] || (r[0] == s[0] && r[|r| - 1] != Quote)
    decreases |s|
  {
    if s != [] && s[|s| - 1] == Quote then TrimTrailing(s[..|s| - 1]) else s
  }

  /**
   * Kotlin's `trim('\'')`: the literal without its leading and trailing single
   * quotes. What is removed is quotes only, and what is left neither starts
   * nor ends with one.
   */
  function TrimQuotes(s: string): (r: string)
    ensures |r| <= |s|
    ensures NoBoundaryQuote(r)
  {
    TrimTrailing(TrimLeading(s))
  }

  /** What `trim('\'')` removes is single quotes and nothing else. */
  lemma TrimQuotesRemovesOnlyQuotes(s: string)
    ensures exists a: nat :: a + |TrimQuotes(s)| <= |s| &&
              s == Quotes(a) + TrimQuotes(s) + Quotes(|s| - a - |TrimQuotes(s)|)
  {
    TrimSplits(s);
  }

  lemma TrimSplits(s: string)
    ensures var l := TrimLeading(s); var r := TrimTrailing(l);
            s == Quotes(|s| - |l|) + r + Quotes(|l| - |r|)
  {
    var l := TrimLeading(s);
    var r := TrimTrailing(l);
    LeadingSplit(s);
    TrailingSplit(l);
    assert s == Quotes(|s| - |l|) + (r + Quotes(|l| - |r|));
  }

  lemma {:induction false} LeadingSplit(s: string)
    ensures var l := TrimLeading(s); s == Quotes(|s| - |l|) + l
    decreases |s|
  {
    var l := TrimLeading(s);
    if s != [] && s[0] == Quote {
      LeadingSplit(s[1..]);
      assert Quotes(|s| - |l|) == [Quote] + Quotes(|s| - 1 - |l|);
      assert s == [Quote] + s[1..];
    } else {
      assert Quotes(0) + s == s;
    }
  }

  lemma {:induction false} TrailingSplit(l: string)
    ensures var r := TrimTrailing(l); l == r + Quotes(|l| - |r|)
    decreases |l|
  {
    var r := TrimTrailing(l);
    if l != [] && l[|l| - 1] == Quote {
      var front := l[..|l| - 1];
      TrailingSplit(front);
      assert Quotes(|l| - |r|) == Quotes(|front| - |r|) + [Quote];
      assert l == front + [Quote];
    } else {
      assert l + Quotes(0) == l;
    }
  }

  lemma {:induction false} TrimLeadingOfQuotes(a: nat, t: string)
    requires t == [] || t[0] != Quote
    ensures TrimLeading(Quotes(a) + t) == t
  {
    if a > 0 {
      assert (Quotes(a) + t)[1..] == Quotes(a - 1) + t;
      TrimLeadingOfQuotes(a - 1, t);
    } else {
      assert Quotes(a) + t == t;
    }
  }

  lemma {:induction false} TrimTrailingOfQuotes(t: string, b: nat)
    requires t == [] || t[|t| - 1] != Quote
    ensures TrimTrailing(t + Quotes(b)) == t
  {
    if b > 0 {
      assert (t + Quotes(b))[..|t| + b - 1] == t + Quotes(b - 1);
      TrimTrailingOfQuotes(t, b - 1);
    } else {
      assert t + Quotes(b) == t;
    }
  }

  /**
   * The reference characterisation of `trim('\'')`: wrapping a string that
   * has no boundary quote in any number of quotes on either side, and
   * trimming, gives that string back.
   */
  lemma TrimQuotesUnwraps(a: nat, x: string, b: nat)
    requires NoBoundaryQuote(x)
    ensures TrimQuotes(Quotes(a) + x + Quotes(b)) == x
  {
    if x == [] {
      assert Quotes(a) + x + Quotes(b) == Quotes(a + b) + [];
      TrimLeadingOfQuotes(a + b, []);
    } else {
      assert Quotes(a) + x + Quotes(b) == Quotes(a) + (x + Quotes(b));
      TrimLeadingOfQuotes(a, x + Quotes(b));
      TrimTrailingOfQuotes(x, b);
    }
  }

  /** A literal `'x'` whose body has no boundary quote trims to `x`. */
  lemma TrimQuotedLiteral(x: string)
    requires NoBoundaryQuote(x)
    ensures TrimQuotes([Quote] + x + [Quote]) == x
  {
    assert Quotes(1) == [Quote];
    TrimQuotesUnwraps(1, x, 1);
  }

  /** Trimming twice is trimming once. */
  lemma TrimQuotesIdempotent(s: string)
    ensures TrimQuotes(TrimQuotes(s)) == TrimQuotes(s)
  {
    var x := TrimQuotes(s);
    assert Quotes(0) + x + Quotes(0) == x;
    TrimQuotesUnwraps(0, x, 0);
  }

  /** The external-repository marker that prefixes every dependency label. */
  const LabelPrefix: string := "@maven//:"

  /** Kotlin's `replace(':', '_')`: every colon becomes an underscore. */
  function ReplaceColons(s: string): (r: string)
    ensures |r| == |s|
    ensures ':' !in r
    ensures forall i :: 0 <= i < |s| && s[i] != ':' ==> r[i] == s[i]
    ensures forall i :: 0 <= i < |s| && s[i] == ':' ==> r[i] == '_'
  {
    if s == [] then []
    else [if s[0] == ':' then '_' else s[0]] + ReplaceColons(s[1..])
  }

  /**
   * The Bazel label of a Maven coordinate: the marker followed by the
   * coordinate with its colons turned into underscores, whatever their number.
   */
  function MavenLabel(coordinate: string): (lbl: string)
    ensures |lbl| == |LabelPrefix| + |coordinate|
    ensures lbl[..|LabelPrefix|] == LabelPrefix
    ensures ':' !in lbl[|LabelPrefix|..]
    ensures forall i :: 0 <= i < |coordinate| && coordinate[i] != ':' ==>
              lbl[|LabelPrefix| + i] == coordinate[i]
    ensures forall i :: 0 <= i < |coordinate| && coordinate[i] == ':' ==>
              lbl[|LabelPrefix| + i] == '_'
  {
    LabelPrefix + ReplaceColons(coordinate)
  }

  /**
   * The conversion is not injective: coordinates that differ only in where
   * they have a colon and where an underscore get the same label.
   */
  lemma MavenLabelCollides()
    ensures MavenLabel("g:a_b:1") == MavenLabel("g_a:b:1")
  {
    assert ReplaceColons("g:a_b:1") == "g_a_b_1";
    assert ReplaceColons("g_a:b:1") == "g_a_b_1";
  }
}
