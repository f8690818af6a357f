/** Account-name normalisation (fix_name). Every key of every table goes through FixName. */
module Names {

  /** ASCII lower-casing of one character. */
  function Lower(c: char): (r: char)
  {
    if 'A' <= c <= 'Z' then (c as int + 32) as char else c
  }

  /** The characters fix_name keeps: a-z, 0-9, '-' and '_'. */
  predicate Allowed(c: char)
  {
    ('a' <= c <= 'z') || ('0' <= c <= '9') || c == '-' || c == '_'
  }

  /** ASCII lower-casing of a whole string (Python's str.lower restricted to ASCII). */
  function LowerAll(s: string): (r: string)
    ensures |r| == |s|
    ensures forall i :: 0 <= i < |s| ==> r[i] == Lower(s[i])
  {
    if s == [] then [] else [Lower(s[0])] + LowerAll(s[1..])
  }

  /**
   * fix_name: drop spaces and '@', strip, lower-case and keep only allowed
   * characters. Spaces, '@' and surrounding whitespace are never allowed, so
   * removing them first is subsumed by the final filter.
   */
  function FixName(s: string): (r: string)
    ensures |r| <= |s|
  {
    if s == [] then []
    else (if Allowed(Lower(s[0])) then [Lower(s[0])] else []) + FixName(s[1..])
  }

  /** A normalised name is one that fix_name leaves alone. */
  predicate IsFixed(s: string)
  {
    forall i :: 0 <= i < |s| ==> Allowed(s[i])
  }

  /** fix_name returns only allowed characters. */
  lemma {:induction false} FixNameIsFixed(s: string)
    ensures IsFixed(FixName(s))
  {
    if s != [] {
      FixNameIsFixed(s[1..]);
      var head := if Allowed(Lower(s[0])) then [Lower(s[0])] else [];
      assert FixName(s) == head + FixName(s[1..]);
      forall i | 0 <= i < |FixName(s)| ensures Allowed(FixName(s)[i]) {
        if i >= |head| {
          assert FixName(s)[i] == FixName(s[1..])[i - |head|];
        }
      }
    }
  }

  lemma LowerAllowed(c: char)
    requires Allowed(c)
    ensures Lower(c) == c
  {
  }

  /** fix_name distributes over concatenation. */
  lemma {:induction false} FixNameAppend(a: string, b: string)
    ensures FixName(a + b) == FixName(a) + FixName(b)
  {
    if a == [] {
      assert a + b == b;
    } else {
      var head := if Allowed(Lower(a[0])) then [Lower(a[0])] else [];
      assert (a + b)[0] == a[0];
      assert (a + b)[1..] == a[1..] + b;
      assert FixName(a + b) == head + FixName(a[1..] + b);
      assert FixName(a) == head + FixName(a[1..]);
      FixNameAppend(a[1..], b);
      assert head + (FixName(a[1..]) + FixName(b)) == (head + FixName(a[1..])) + FixName(b);
    }
  }

  /** The fixed points of fix_name are exactly the strings made of allowed characters. */
  lemma {:induction false} FixNameFixedPoint(s: string)
    ensures FixName(s) == s <==> IsFixed(s)
  {
    if s != [] {
      FixNameFixedPoint(s[1..]);
      if IsFixed(s) {
        LowerAllowed(s[0]);
        assert IsFixed(s[1..]) by {
          forall i | 0 <= i < |s[1..]| ensures Allowed(s[1..][i]) {
            assert s[1..][i] == s[i + 1];
          }
        }
        assert FixName(s) == [s[0]] + s[1..];
      }
    }
  }

  /** Applying fix_name twice is the same as applying it once. */
  lemma {:induction false} FixNameIdempotent(s: string)
    ensures FixName(FixName(s)) == FixName(s)
  {
    FixNameIsFixed(s);
    FixNameFixedPoint(FixName(s));
  }

  /** fix_name ignores letter case. */
  lemma {:induction false} FixNameCaseInsensitive(s: string)
    ensures FixName(LowerAll(s)) == FixName(s)
  {
    if s != [] {
      var l := LowerAll(s);
      assert l[0] == Lower(s[0]);
      assert Lower(Lower(s[0])) == Lower(s[0]);
      assert l[1..] == LowerAll(s[1..]);
      FixNameCaseInsensitive(s[1..]);
    }
  }
}
