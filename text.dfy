/** The JavaScript string operations the app relies on: `toLowerCase`, `includes`,
    `trim`, and the ordering of strings by `<`. */
module Text {

  /** Capital letters that `toLowerCase` lowers by one step of 32 code points:
      ASCII A-Z and the Latin-1 capitals U+00C0..U+00DE except U+00D7 (the
      multiplication sign). This covers the Portuguese alphabet. */
  predicate IsUpper(c: char)
  {
    ('A' <= c <= 'Z') || ('\U{C0}' <= c <= '\U{DE}' && c != '\U{D7}')
  }

  function LowerChar(c: char): (r: char)
    ensures !IsUpper(r)
  {
    if IsUpper(c) then (c as int + 32) as char else c
  }

  /** `s.toLowerCase()`, one character at a time. */
  function Lower(s: string): (r: string)
    ensures |r| == |s|
    ensures forall i :: 0 <= i < |r| ==> !IsUpper(r[i])
  {
    seq(|s|, i requires 0 <= i < |s| => LowerChar(s[i]))
  }

  lemma LowerIdempotent(s: string)
    ensures Lower(Lower(s)) == Lower(s)
  {
    var l := Lower(s);
    forall i | 0 <= i < |l| ensures Lower(l)[i] == l[i] {
      assert !IsUpper(l[i]);
    }
  }

  /** `s.includes(needle)`: some position of `s` starts with `needle`. */
  predicate Includes(s: string, needle: string)
    decreases |s|
  {
    needle <= s || (|s| > 0 && Includes(s[1..], needle))
  }

  /** `needle` occurs in `s` starting at position `i`. */
  predicate OccursAt(s: string, needle: string, i: int)
  {
    0 <= i && i + |needle| <= |s| && s[i..i + |needle|] == needle
  }

  /** Dropping the first character shifts every occurrence one place left. */
  lemma OccursInTail(s: string, needle: string, i: int)
    requires |s| > 0 && 0 <= i
    ensures OccursAt(s, needle, i + 1) <==> OccursAt(s[1..], needle, i)
  {
    if i + 1 + |needle| <= |s| {
      assert s[1..][i..i + |needle|] == s[i + 1..i + 1 + |needle|];
    }
  }

  /** `Includes` agrees with the reference definition: `needle` is a slice of `s`. */
  lemma {:induction false} IncludesIffOccurs(s: string, needle: string)
    ensures Includes(s, needle) <==> exists i :: OccursAt(s, needle, i)
    decreases |s|
  {
    if needle <= s {
      assert OccursAt(s, needle, 0);
    } else if |s| > 0 {
      IncludesIffOccurs(s[1..], needle);
      assert !OccursAt(s, needle, 0);
      if i :| OccursAt(s, needle, i) {
        OccursInTail(s, needle, i - 1);
      }
      if j :| OccursAt(s[1..], needle, j) {
        OccursInTail(s, needle, j);
      }
    } else {
      forall i | OccursAt(s, needle, i) ensures false { }
    }
  }

  /** The characters `String.prototype.trim` removes: ECMAScript WhiteSpace
      (tab, vertical tab, form feed, space, no-break space, byte order mark and
      the space separators of category Zs) and LineTerminator. */
  predicate IsWhiteSpace(c: char)
  {
    || c == '\t' || c == '\U{B}' || c == '\U{C}' || c == ' ' || c == '\U{A0}' || c == '\U{FEFF}'
    || c == '\U{1680}' || ('\U{2000}' <= c <= '\U{200A}') || c == '\U{202F}' || c == '\U{205F}'
    || c == '\U{3000}'
    || c == '\n' || c == '\r' || c == '\U{2028}' || c == '\U{2029}'
  }

  predicate AllWhiteSpace(s: string)
  {
    forall i :: 0 <= i < |s| ==> IsWhiteSpace(s[i])
  }

  /** Drops leading white space: the result is a suffix of `s`, everything
      dropped is white space, and the result does not start with white space. */
  function TrimStart(s: string): (r: string)
    ensures |r| <= |s| && r == s[|s| - |r|..]
    ensures AllWhiteSpace(s[..|s| - |r|])
    ensures |r| > 0 ==> !IsWhiteSpace(r[0])
  {
    if |s| > 0 && IsWhiteSpace(s[0]) then TrimStart(s[1..]) else s
  }

  /** Drops trailing white space: the result is a prefix of `s`, everything
      dropped is white space, and the result does not end with white space. */
  function TrimEnd(s: string): (r: string)
    ensures |r| <= |s| && r == s[..|r|]
    ensures AllWhiteSpace(s[|r|..])
    ensures |r| > 0 ==> !IsWhiteSpace(r[|r| - 1])
  {
    if |s| > 0 && IsWhiteSpace(s[|s| - 1]) then TrimEnd(s[..|s| - 1]) else s
  }

  /** `s.trim()`. */
  function Trim(s: string): string
  {
    TrimEnd(TrimStart(s))
  }

  /** What `trim` promises: its result is a slice of `s` that neither starts nor
      ends with white space, and everything around it is white space. */
  lemma TrimIsSlice(s: string)
    ensures var t := Trim(s);
            exists i :: OccursAt(s, t, i) && AllWhiteSpace(s[..i]) && AllWhiteSpace(s[i + |t|..])
    ensures |Trim(s)| > 0 ==> !IsWhiteSpace(Trim(s)[0]) && !IsWhiteSpace(Trim(s)[|Trim(s)| - 1])
  {
    var u := TrimStart(s);
    var t := TrimEnd(u);
    var i := |s| - |u|;
    SliceOfSuffix(s, u, t, i);
    assert AllWhiteSpace(s[..i]);
    assert AllWhiteSpace(s[i + |t|..]);
    if |t| > 0 {
      assert t[0] == u[0];
    }
  }

  /** A prefix `t` of the suffix `u` of `s` that starts at `i` occurs in `s`
      at `i`, and what follows it in `s` is what follows it in `u`. */
  lemma SliceOfSuffix(s: string, u: string, t: string, i: nat)
    requires i <= |s| && u == s[i..] && |t| <= |u| && t == u[..|t|]
    ensures OccursAt(s, t, i) && s[i + |t|..] == u[|t|..]
  {
    assert s[i..i + |t|] == u[..|t|];
  }

  /** `trim` yields the empty string exactly when `s` is all white space. */
  lemma TrimEmptyIff(s: string)
    ensures Trim(s) == "" <==> AllWhiteSpace(s)
  {
    var u := TrimStart(s);
    var t := TrimEnd(u);
    if t == "" {
      assert s[..|s| - |u|] == s;
    } else {
      assert t[0] == u[0];
      assert u[0] == s[|s| - |u|];
    }
  }

  lemma TrimIdempotent(s: string)
    ensures Trim(Trim(s)) == Trim(s)
  {
    var t := Trim(s);
    TrimIsSlice(s);
  }

  /** JavaScript's `a < b` on strings: lexicographic order of the characters
      (which for the ASCII date strings used here is their code-unit order). */
  predicate LexLess(a: string, b: string)
  {
    if a == [] then b != []
    else if b == [] then false
    else a[0] < b[0] || (a[0] == b[0] && LexLess(a[1..], b[1..]))
  }

  /** Comparing two concatenations whose first parts have the same length
      compares the first parts, then the second parts. */
  lemma {:induction false} LexLessConcat(a1: string, a2: string, b1: string, b2: string)
    requires |a1| == |b1|
    ensures LexLess(a1 + a2, b1 + b2) <==> LexLess(a1, b1) || (a1 == b1 && LexLess(a2, b2))
  {
    if a1 != [] {
      assert (a1 + a2)[1..] == a1[1..] + a2;
      assert (b1 + b2)[1..] == b1[1..] + b2;
      LexLessConcat(a1[1..], a2, b1[1..], b2);
      if a1[0] == b1[0] && a1[1..] == b1[1..] {
        assert a1 == [a1[0]] + a1[1..];
        assert b1 == [b1[0]] + b1[1..];
      }
    } else {
      assert a1 + a2 == a2 && b1 + b2 == b2;
    }
  }
}
