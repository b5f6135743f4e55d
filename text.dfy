/** The three Python string operations the chat step relies on: `str.lower`
    (restricted to ASCII letters), `str.startswith`, `str.replace(old, "")`
    and `str.strip()` with no argument. */
module Text {

  /** `c.lower()` for one character: only 'A'..'Z' change. */
  function LowerChar(c: char): (r: char)
    ensures 'A' <= c <= 'Z' ==> r as int == c as int + 32
    ensures !('A' <= c <= 'Z') ==> r == c
    ensures !('A' <= r <= 'Z')
  {
    if 'A' <= c <= 'Z' then (c as int + 32) as char else c
  }

  /** `s.lower()`: the same length, every character lowered on its own. */
  function Lower(s: string): (r: string)
    ensures |r| == |s|
    ensures forall i :: 0 <= i < |s| ==> r[i] == LowerChar(s[i])
  {
    seq(|s|, i requires 0 <= i < |s| => LowerChar(s[i]))
  }

  /** `s.startswith(p)`: `s` is at least as long as `p` and agrees with it
      character by character. */
  function StartsWith(s: string, p: string): (b: bool)
    ensures b <==> |p| <= |s| && forall i :: 0 <= i < |p| ==> s[i] == p[i]
  {
    |p| <= |s| && s[..|p|] == p
  }

  /** `s.replace(p, "")`: every occurrence of `p` found by the left-to-right,
      non-overlapping scan is removed; the other characters keep their order. */
  function RemoveAll(s: string, p: string): (r: string)
    requires p != []
    ensures |r| <= |s|
    ensures forall c :: c in r ==> c in s
    decreases |s|
  {
    if |s| < |p| then s
    else if StartsWith(s, p) then
      assert s == s[..|p|] + s[|p|..];
      RemoveAll(s[|p|..], p)
    else
      assert s == [s[0]] + s[1..];
      [s[0]] + RemoveAll(s[1..], p)
  }

  /** `p` occurs in `s` starting at index `i`. */
  predicate OccursAt(s: string, p: string, i: int) {
    0 <= i && i + |p| <= |s| && s[i..i + |p|] == p
  }

  /** `p` occurs in `s` at some index. */
  predicate Occurs(s: string, p: string) {
    exists i | 0 <= i <= |s| :: OccursAt(s, p, i)
  }

  /** Removal leaves `s` as it is exactly when `p` occurs nowhere in it. */
  lemma {:induction false} RemoveAllUnchanged(s: string, p: string)
    requires p != []
    ensures RemoveAll(s, p) == s <==> !Occurs(s, p)
    decreases |s|
  {
    if |s| < |p| {
    } else if StartsWith(s, p) {
      assert OccursAt(s, p, 0);
      assert |RemoveAll(s, p)| <= |s| - |p|;
    } else {
      RemoveAllUnchanged(s[1..], p);
      assert RemoveAll(s, p) == [s[0]] + RemoveAll(s[1..], p);
      assert s == [s[0]] + s[1..];
      OccursShift(s[0], s[1..], p);
      if Occurs(s[1..], p) {
        var i :| 0 <= i <= |s[1..]| && OccursAt(s[1..], p, i);
        assert OccursAt(s, p, i + 1);
      }
      if Occurs(s, p) {
        var i :| 0 <= i <= |s| && OccursAt(s, p, i);
        assert OccursAt(s, p, 0) == StartsWith(s, p);
        assert OccursAt(s[1..], p, i - 1);
      }
    }
  }

  /** A leading occurrence is removed and the scan resumes right after it. */
  lemma RemoveAllLeading(p: string, s: string)
    requires p != []
    ensures RemoveAll(p + s, p) == RemoveAll(s, p)
  {
    assert (p + s)[..|p|] == p;
    assert StartsWith(p + s, p);
    assert (p + s)[|p|..] == s;
  }

  /** A position where `p` does not start is kept and the scan moves on by one. */
  lemma RemoveAllSkip(c: char, s: string, p: string)
    requires p != [] && !StartsWith([c] + s, p)
    ensures RemoveAll([c] + s, p) == [c] + RemoveAll(s, p)
  {
    assert ([c] + s)[1..] == s;
  }

  /** The scan passes over a stretch `a` in which the first character of `p`
      never appears, keeping it whole. */
  lemma {:induction false} RemoveAllPassOver(a: string, rest: string, p: string)
    requires p != [] && p[0] !in a
    ensures RemoveAll(a + rest, p) == a + RemoveAll(rest, p)
    decreases |a|
  {
    if a == [] {
      assert a + rest == rest;
    } else {
      assert a + rest == [a[0]] + (a[1..] + rest);
      assert !StartsWith([a[0]] + (a[1..] + rest), p) by {
        assert ([a[0]] + (a[1..] + rest))[0] == a[0];
      }
      RemoveAllSkip(a[0], a[1..] + rest, p);
      RemoveAllPassOver(a[1..], rest, p);
      assert a == [a[0]] + a[1..];
    }
  }

  /** The scan keeps a stretch `a` whole when no occurrence of `p` starts
      inside it, even one that would run on into `rest`. */
  lemma {:induction false} RemoveAllFirst(a: string, rest: string, p: string)
    requires p != []
    requires forall i :: 0 <= i < |a| ==> !OccursAt(a + rest, p, i)
    ensures RemoveAll(a + rest, p) == a + RemoveAll(rest, p)
    decreases |a|
  {
    if a == [] {
      assert a + rest == rest;
    } else {
      var tail := a[1..] + rest;
      assert a + rest == [a[0]] + tail;
      assert OccursAt(a + rest, p, 0) == StartsWith(a + rest, p);
      RemoveAllSkip(a[0], tail, p);
      OccursShift(a[0], tail, p);
      RemoveAllFirst(a[1..], rest, p);
      assert a == [a[0]] + a[1..];
    }
  }

  /** An occurrence at index `i` after the first character is one at `i + 1`
      before it. */
  lemma OccursShift(c: char, s: string, p: string)
    ensures forall i :: 0 <= i ==> (OccursAt(s, p, i) <==> OccursAt([c] + s, p, i + 1))
  {
    forall i | 0 <= i && OccursAt([c] + s, p, i + 1) ensures OccursAt(s, p, i) {
      assert s[i..i + |p|] == ([c] + s)[i + 1..i + 1 + |p|];
    }
    forall i | OccursAt(s, p, i) ensures OccursAt([c] + s, p, i + 1) {
      assert s[i..i + |p|] == ([c] + s)[i + 1..i + 1 + |p|];
    }
  }

  /** Characters that Python's `str.isspace` accepts, hence those `strip()`
      removes: the ASCII controls 9..13 and 28..31, the space, and the
      Unicode spaces and separators. */
  function IsSpace(c: char): (b: bool)
    ensures b <==> c as int in {
      0x09, 0x0A, 0x0B, 0x0C, 0x0D, 0x1C, 0x1D, 0x1E, 0x1F, 0x20, 0x85, 0xA0, 0x1680,
      0x2000, 0x2001, 0x2002, 0x2003, 0x2004, 0x2005, 0x2006, 0x2007, 0x2008, 0x2009, 0x200A,
      0x2028, 0x2029, 0x202F, 0x205F, 0x3000}
  {
    ('\t' <= c <= '\r') || ('\U{1C}' <= c <= ' ') || c == '\U{85}' || c == '\U{A0}'
    || c == '\U{1680}' || ('\U{2000}' <= c <= '\U{200A}') || c == '\U{2028}'
    || c == '\U{2029}' || c == '\U{202F}' || c == '\U{205F}' || c == '\U{3000}'
  }

  /** `s.lstrip()`: the longest suffix of `s` that does not begin with
      whitespace; what it drops is all whitespace. */
  function TrimStart(s: string): (r: string)
    ensures |r| <= |s| && r == s[|s| - |r|..]
    ensures forall i :: 0 <= i < |s| - |r| ==> IsSpace(s[i])
    ensures r != [] ==> !IsSpace(r[0])
  {
    if s != [] && IsSpace(s[0]) then TrimStart(s[1..]) else s
  }

  /** `s.rstrip()`: the longest prefix of `s` that does not end with
      whitespace; what it drops is all whitespace. */
  function TrimEnd(s: string): (r: string)
    ensures |r| <= |s| && r == s[..|r|]
    ensures forall i :: |r| <= i < |s| ==> IsSpace(s[i])
    ensures r != [] ==> !IsSpace(r[|r| - 1])
  {
    if s != [] && IsSpace(s[|s| - 1]) then TrimEnd(s[..|s| - 1]) else s
  }

  /** `s.strip()`: a contiguous slice of `s` with whitespace only outside it
      and no whitespace at either of its ends. */
  function Strip(s: string): (r: string)
    ensures exists i, j ::
              && 0 <= i <= j <= |s| && r == s[i..j]
              && (forall k :: 0 <= k < i ==> IsSpace(s[k]))
              && (forall k :: j <= k < |s| ==> IsSpace(s[k]))
    ensures r != [] ==> !IsSpace(r[0]) && !IsSpace(r[|r| - 1])
  {
    var t := TrimStart(s);
    var r := TrimEnd(t);
    var i := |s| - |t|;
    assert r == s[i..i + |r|];
    r
  }

  /** Text that ends in a non-space keeps all of it when more text follows:
      only the whitespace at the end of the follower is trimmed. */
  lemma {:induction false} TrimEndAfter(x: string, y: string)
    requires x != [] && !IsSpace(x[|x| - 1])
    ensures TrimEnd(x + y) == x + TrimEnd(y)
    decreases |y|
  {
    if y == [] {
      assert x + y == x;
    } else {
      var y' := y[..|y| - 1];
      assert (x + y)[..|x + y| - 1] == x + y';
      if IsSpace(y[|y| - 1]) {
        TrimEndAfter(x, y');
      }
    }
  }

  /** Stripping text that begins with a stretch `x` which neither begins nor
      ends with whitespace keeps `x` and trims only the end of the rest. */
  lemma StripAfter(x: string, y: string)
    requires x != [] && !IsSpace(x[0]) && !IsSpace(x[|x| - 1])
    ensures Strip(x + y) == x + TrimEnd(y)
  {
    assert (x + y)[0] == x[0];
    TrimEndAfter(x, y);
  }
}
