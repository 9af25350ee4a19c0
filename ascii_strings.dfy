/**
 * The string operations the assistant applies to technology tags and console
 * input: `str.lower()`, `str.strip()` and `str.join`, restricted to ASCII.
 * Characters outside ASCII are left unchanged by `Lower` and are never
 * whitespace for `Strip`.
 */
module AsciiStrings {

  // ---------------------------------------------------------------------------
  // Case mapping
  // ---------------------------------------------------------------------------

  predicate IsUpper(c: char) {
    'A' <= c <= 'Z'
  }

  /** `c.lower()` for one ASCII character: upper-case letters move down by 32. */
  function LowerChar(c: char): (r: char)
    ensures !IsUpper(r)
    ensures IsUpper(c) ==> r as int == c as int + 32
    ensures !IsUpper(c) ==> r == c
  {
    if IsUpper(c) then (c as int + 32) as char else c
  }

  predicate NoUpper(s: string) {
    forall i :: 0 <= i < |s| ==> !IsUpper(s[i])
  }

  /** `s.lower()`: maps every character through `LowerChar`, keeping length and order. */
  function Lower(s: string): (r: string)
    ensures |r| == |s|
    ensures forall i :: 0 <= i < |s| ==> r[i] == LowerChar(s[i])
  {
    if s == [] then [] else [LowerChar(s[0])] + Lower(s[1..])
  }

  lemma LowerHasNoUpper(s: string)
    ensures NoUpper(Lower(s))
  {
  }

  /** A string with no upper-case letter is its own lower-case form. */
  lemma LowerOfNoUpper(s: string)
    requires NoUpper(s)
    ensures Lower(s) == s
  {
  }

  lemma LowerIdempotent(s: string)
    ensures Lower(Lower(s)) == Lower(s)
  {
    LowerHasNoUpper(s);
    LowerOfNoUpper(Lower(s));
  }

  // ---------------------------------------------------------------------------
  // Whitespace stripping
  // ---------------------------------------------------------------------------

  /** The ASCII characters Python's `str.strip()` treats as whitespace. */
  predicate IsSpace(c: char) {
    c == ' ' || c == '\t' || c == '\n' || c == '\r' || c == '\U{000B}' || c == '\U{000C}'
    || ('\U{001C}' <= c <= '\U{001F}')
  }

  lemma LowerCharKeepsSpace(c: char)
    ensures IsSpace(LowerChar(c)) <==> IsSpace(c)
  {
  }

  /** Drops the longest whitespace prefix. */
  function StripLeft(s: string): (r: string)
    ensures |r| <= |s| && r == s[|s| - |r|..]
    ensures forall k :: 0 <= k < |s| - |r| ==> IsSpace(s[k])
    ensures r != [] ==> !IsSpace(r[0])
  {
    if s != [] && IsSpace(s[0]) then StripLeft(s[1..]) else s
  }

  /** Drops the longest whitespace suffix. */
  function StripRight(s: string): (r: string)
    ensures |r| <= |s| && r == s[..|r|]
    ensures forall k :: |r| <= k < |s| ==> IsSpace(s[k])
    ensures r != [] ==> !IsSpace(r[|r| - 1])
  {
    if s != [] && IsSpace(s[|s| - 1]) then StripRight(s[..|s| - 1]) else s
  }

  /** A string that starts and ends with a non-whitespace character, or is empty. */
  predicate IsStripped(s: string) {
    s == [] || (!IsSpace(s[0]) && !IsSpace(s[|s| - 1]))
  }

  /** `s.strip()`: drops leading and trailing whitespace. */
  function Strip(s: string): (r: string)
    ensures IsStripped(r)
    ensures r == [] <==> forall k :: 0 <= k < |s| ==> IsSpace(s[k])
  {
    var l := StripLeft(s);
    var r := StripRight(l);
    assert r != [] ==> r[0] == l[0];
    r
  }

  /**
   * `Strip(s)` is the slice `s[lo..hi]` of `s` whose outside is all whitespace:
   * nothing but whitespace is removed, and only from the two ends.
   */
  lemma StripIsSlice(s: string) returns (lo: nat, hi: nat)
    ensures lo <= hi <= |s| && Strip(s) == s[lo..hi]
    ensures forall k :: 0 <= k < lo ==> IsSpace(s[k])
    ensures forall k :: hi <= k < |s| ==> IsSpace(s[k])
  {
    var l := StripLeft(s);
    lo := |s| - |l|;
    hi := lo + |StripRight(l)|;
    forall k | hi <= k < |s| ensures IsSpace(s[k]) {
      assert s[k] == l[k - lo];
    }
  }

  /** Stripping a string that is already stripped changes nothing. */
  lemma StripOfStripped(s: string)
    requires IsStripped(s)
    ensures Strip(s) == s
  {
  }

  lemma StripIdempotent(s: string)
    ensures Strip(Strip(s)) == Strip(s)
  {
    StripOfStripped(Strip(s));
  }

  lemma {:induction false} StripLeftPadded(p: string, t: string)
    requires forall k :: 0 <= k < |p| ==> IsSpace(p[k])
    requires t == [] || !IsSpace(t[0])
    ensures StripLeft(p + t) == t
  {
    if p != [] {
      assert (p + t)[1..] == p[1..] + t;
      StripLeftPadded(p[1..], t);
    } else {
      assert p + t == t;
    }
  }

  lemma {:induction false} StripRightPadded(t: string, q: string)
    requires forall k :: 0 <= k < |q| ==> IsSpace(q[k])
    requires t == [] || !IsSpace(t[|t| - 1])
    ensures StripRight(t + q) == t
  {
    if q != [] {
      var n := |q| - 1;
      assert (t + q)[..|t + q| - 1] == t + q[..n];
      StripRightPadded(t, q[..n]);
    } else {
      assert t + q == t;
    }
  }

  /** Whitespace padding around a stripped text is exactly what `Strip` removes. */
  lemma StripPadded(p: string, m: string, q: string)
    requires forall k :: 0 <= k < |p| ==> IsSpace(p[k])
    requires forall k :: 0 <= k < |q| ==> IsSpace(q[k])
    requires IsStripped(m)
    ensures Strip(p + m + q) == m
  {
    if m == [] {
      assert p + m + q == p + q;
      StripLeftPadded(p + q, []);
      assert p + q + [] == p + q;
    } else {
      assert p + m + q == p + (m + q);
      StripLeftPadded(p, m + q);
      StripRightPadded(m, q);
    }
  }

  lemma {:induction false} LowerStripLeft(s: string)
    ensures StripLeft(Lower(s)) == Lower(StripLeft(s))
  {
    if s != [] {
      LowerCharKeepsSpace(s[0]);
      assert Lower(s)[1..] == Lower(s[1..]);
      if IsSpace(s[0]) {
        LowerStripLeft(s[1..]);
      }
    }
  }

  lemma {:induction false} LowerStripRight(s: string)
    ensures StripRight(Lower(s)) == Lower(StripRight(s))
  {
    if s != [] {
      var n := |s| - 1;
      LowerCharKeepsSpace(s[n]);
      assert Lower(s)[..n] == Lower(s[..n]);
      if IsSpace(s[n]) {
        LowerStripRight(s[..n]);
      }
    }
  }

  /** Lower-casing and stripping commute, so the order the assistant applies them in does not matter. */
  lemma LowerStripCommute(s: string)
    ensures Strip(Lower(s)) == Lower(Strip(s))
  {
    LowerStripLeft(s);
    LowerStripRight(StripLeft(s));
  }

  // ---------------------------------------------------------------------------
  // Joining and splitting
  // ---------------------------------------------------------------------------

  /** `sep.join(xs)`: the elements of `xs` with `sep` between neighbours. */
  function Join(sep: string, xs: seq<string>): (r: string)
    ensures xs == [] ==> r == []
    ensures |xs| == 1 ==> r == xs[0]
  {
    if xs == [] then []
    else if |xs| == 1 then xs[0]
    else xs[0] + sep + Join(sep, xs[1..])
  }

  /** Appending one element to a non-empty list appends a separator and that element. */
  lemma {:induction false} JoinSnoc(sep: string, xs: seq<string>, y: string)
    requires xs != []
    ensures Join(sep, xs + [y]) == Join(sep, xs) + sep + y
  {
    if |xs| > 1 {
      assert (xs + [y])[1..] == xs[1..] + [y];
      JoinSnoc(sep, xs[1..], y);
    } else {
      assert (xs + [y])[1..] == [y];
    }
  }

  /** `s.split(c)` for a one-character separator: the pieces between occurrences of `c`. */
  function Split(c: char, s: string): (r: seq<string>)
    ensures |r| >= 1
  {
    if s == [] then [[]]
    else if s[0] == c then [[]] + Split(c, s[1..])
    else
      var rest := Split(c, s[1..]);
      [[s[0]] + rest[0]] + rest[1..]
  }

  lemma {:induction false} SplitPrefix(c: char, x: string, tail: string)
    requires c !in x
    ensures Split(c, x + tail) == [x + Split(c, tail)[0]] + Split(c, tail)[1..]
  {
    if x != [] {
      assert (x + tail)[1..] == x[1..] + tail;
      var t := Split(c, tail);
      assert (x + tail)[0] == x[0] != c;
      SplitPrefix(c, x[1..], tail);
      var rest := Split(c, x[1..] + tail);
      assert rest == [x[1..] + t[0]] + t[1..];
      assert Split(c, x + tail) == [[x[0]] + rest[0]] + rest[1..];
      assert [x[0]] + (x[1..] + t[0]) == x + t[0];
    } else {
      var t := Split(c, tail);
      assert x + tail == tail && x + t[0] == t[0];
      assert [t[0]] + t[1..] == t;
    }
  }

  /**
   * Splitting a join on its separator gives the list back, when the list is
   * non-empty and no element contains the separator.
   */
  lemma {:induction false} SplitJoin(c: char, xs: seq<string>)
    requires xs != []
    requires forall i :: 0 <= i < |xs| ==> c !in xs[i]
    ensures Split(c, Join([c], xs)) == xs
  {
    if |xs| == 1 {
      SplitPrefix(c, xs[0], []);
      assert xs[0] + [] == xs[0];
      assert Split(c, []) == [[]];
      assert [xs[0]] == xs;
    } else {
      var j := Join([c], xs[1..]);
      assert Join([c], xs) == xs[0] + ([c] + j);
      SplitPrefix(c, xs[0], [c] + j);
      assert ([c] + j)[0] == c && ([c] + j)[1..] == j;
      var t := Split(c, [c] + j);
      assert t == [[]] + Split(c, j);
      SplitJoin(c, xs[1..]);
      assert t[0] == [] && t[1..] == xs[1..];
      assert xs[0] + t[0] == xs[0];
      assert [xs[0]] + xs[1..] == xs;
    }
  }
}
