/** The Python string operations the control layer relies on: `str.strip()`,
    slicing `s[:n]`, `sub in s`, `s.split(sep)[1]`, `s.replace(pat, "")` and
    `str(n)` for an int. */
module Text {
  import opened Wrappers

  /** The ASCII characters `str.strip()` removes: space, tab, line feed,
      vertical tab, form feed, carriage return, and the four separators
      0x1C to 0x1F that `str.isspace()` also counts. */
  predicate IsSpace(c: char) {
    c == ' ' || '\t' <= c <= '\r' || '\U{1C}' <= c <= '\U{1F}'
  }

  ghost predicate AllSpace(s: string) {
    forall i :: 0 <= i < |s| ==> IsSpace(s[i])
  }

  /** Neither the first nor the last character is whitespace. */
  ghost predicate NoEdgeSpace(s: string) {
    s == [] || (!IsSpace(s[0]) && !IsSpace(s[|s| - 1]))
  }

  /** `r` is `s` with the whitespace-only prefix `s[..i]` and a whitespace-only suffix cut off. */
  ghost predicate TrimmedAt(s: string, r: string, i: int) {
    0 <= i && i + |r| <= |s| && s[i..i + |r|] == r && AllSpace(s[..i]) && AllSpace(s[i + |r|..])
  }

  /** Python's `s.strip()`: whitespace is removed from both ends. */
  function Strip(s: string): string {
    if |s| > 0 && IsSpace(s[0]) then Strip(s[1..])
    else if |s| > 0 && IsSpace(s[|s| - 1]) then Strip(s[..|s| - 1])
    else s
  }

  /** `strip()` removes whitespace only, and only at the two ends: its result
      is a slice of the input with nothing but whitespace on either side, and
      neither starts nor ends with whitespace itself. */
  lemma {:induction false} StripTrims(s: string)
    ensures NoEdgeSpace(Strip(s))
    ensures exists i :: TrimmedAt(s, Strip(s), i)
    decreases |s|
  {
    var r := Strip(s);
    if |s| > 0 && IsSpace(s[0]) {
      StripTrims(s[1..]);
      var i :| TrimmedAt(s[1..], r, i);
      TrimmedFront(s, r, i);
    } else if |s| > 0 && IsSpace(s[|s| - 1]) {
      StripTrims(s[..|s| - 1]);
      var i :| TrimmedAt(s[..|s| - 1], r, i);
      TrimmedBack(s, r, i);
    } else {
      assert TrimmedAt(s, r, 0);
    }
  }

  /** A whitespace character in front of a trimmed slice is trimmed with it. */
  lemma TrimmedFront(s: string, r: string, i: int)
    requires |s| > 0 && IsSpace(s[0]) && TrimmedAt(s[1..], r, i)
    ensures TrimmedAt(s, r, i + 1)
  {
    assert s[1..][i..i + |r|] == s[i + 1..i + 1 + |r|];
    assert s[..i + 1] == [s[0]] + s[1..][..i];
    assert s[i + 1 + |r|..] == s[1..][i + |r|..];
  }

  /** A whitespace character after a trimmed slice is trimmed with it. */
  lemma TrimmedBack(s: string, r: string, i: int)
    requires |s| > 0 && IsSpace(s[|s| - 1]) && TrimmedAt(s[..|s| - 1], r, i)
    ensures TrimmedAt(s, r, i)
  {
    var t := s[..|s| - 1];
    assert t[i..i + |r|] == s[i..i + |r|];
    assert t[..i] == s[..i];
    assert s[i + |r|..] == t[i + |r|..] + [s[|s| - 1]];
  }

  /** Text that already has no edge whitespace is left alone by `strip()`. */
  lemma StripKeepsTrimmed(s: string)
    requires NoEdgeSpace(s)
    ensures Strip(s) == s
  {
  }

  /** `strip()` is idempotent. */
  lemma StripIdempotent(s: string)
    ensures Strip(Strip(s)) == Strip(s)
  {
    StripTrims(s);
    StripKeepsTrimmed(Strip(s));
  }

  /** Python's `s[:n]`. */
  function Take(s: string, n: nat): (r: string)
    ensures |r| <= n && r <= s
    ensures |s| <= n ==> r == s
    ensures |r| == if |s| <= n then |s| else n
  {
    if |s| <= n then s else s[..n]
  }

  /** `pat` occurs in `s` starting at index `k`. */
  predicate Occurs(s: string, pat: string, k: nat) {
    k + |pat| <= |s| && s[k..k + |pat|] == pat
  }

  /** Python's `pat in s`. */
  ghost predicate Contains(s: string, pat: string) {
    exists k: nat :: Occurs(s, pat, k)
  }

  /** The leftmost occurrence of `pat` in `s` at or after `from`. */
  function FindFrom(s: string, pat: string, from: nat): (r: Option<nat>)
    requires |pat| > 0
    ensures r.Some? ==> from <= r.value && Occurs(s, pat, r.value)
    ensures r.Some? ==> forall k: nat :: from <= k < r.value ==> !Occurs(s, pat, k)
    ensures r.None? ==> forall k: nat :: from <= k ==> !Occurs(s, pat, k)
    decreases |s| - from
  {
    if from + |pat| > |s| then None
    else if s[from..from + |pat|] == pat then Some(from)
    else FindFrom(s, pat, from + 1)
  }

  /** Python's `s.find(pat)`, with None for -1. */
  function Find(s: string, pat: string): (r: Option<nat>)
    requires |pat| > 0
    ensures r.Some? <==> Contains(s, pat)
    ensures r.Some? ==> Occurs(s, pat, r.value) && forall k: nat :: k < r.value ==> !Occurs(s, pat, k)
  {
    FindFrom(s, pat, 0)
  }

  /** Python's `s.split(sep)[1]`: the text after the first `sep`, up to the next `sep` or the end. */
  function SecondField(s: string, sep: string): (r: string)
    requires |sep| > 0 && Contains(s, sep)
    ensures !Contains(r, sep)
  {
    var i := Find(s, sep).value;
    var rest := s[i + |sep|..];
    match Find(rest, sep)
    case None => rest
    case Some(j) =>
      assert forall k: nat :: Occurs(rest[..j], sep, k) ==> Occurs(rest, sep, k) by {
        forall k: nat | Occurs(rest[..j], sep, k) ensures Occurs(rest, sep, k) {
          assert rest[..j][k..k + |sep|] == rest[k..k + |sep|];
        }
      }
      rest[..j]
  }

  /** When `a` followed by the start of `sep` holds no `sep`, no occurrence of `sep`
      in `a + sep + rest` starts inside `a`. */
  lemma NoEarlyOccurrence(a: string, sep: string, rest: string)
    requires |sep| > 0 && !Contains(a + sep[..|sep| - 1], sep)
    ensures forall k: nat :: k < |a| ==> !Occurs(a + sep + rest, sep, k)
  {
    var s := a + sep + rest;
    var p := a + sep[..|sep| - 1];
    forall k: nat | k < |a| ensures !Occurs(s, sep, k) {
      if Occurs(s, sep, k) {
        assert s[..|p|] == p;
        assert s[k..k + |sep|] == p[k..k + |sep|];
        assert Occurs(p, sep, k);
      }
    }
  }

  /** The first occurrence of `sep` in `a + sep + rest` is the one right after `a`. */
  lemma FindAfter(a: string, sep: string, rest: string)
    requires |sep| > 0 && !Contains(a + sep[..|sep| - 1], sep)
    ensures Find(a + sep + rest, sep) == Some(|a|)
  {
    NoEarlyOccurrence(a, sep, rest);
    var s := a + sep + rest;
    assert Occurs(s, sep, |a|) by { assert s[|a|..|a| + |sep|] == sep; }
  }

  /** `split(sep)[1]` of `a + sep + b + sep + c` is `b` when neither `a` nor `b`
      holds a separator of its own (also not one that runs into the next `sep`). */
  lemma SecondFieldBetween(a: string, b: string, c: string, sep: string)
    requires |sep| > 0
    requires !Contains(a + sep[..|sep| - 1], sep) && !Contains(b + sep[..|sep| - 1], sep)
    ensures Contains(a + sep + b + sep + c, sep)
    ensures SecondField(a + sep + b + sep + c, sep) == b
  {
    var s := a + sep + b + sep + c;
    assert s == a + sep + (b + sep + c);
    FindAfter(a, sep, b + sep + c);
    assert s[|a| + |sep|..] == b + sep + c;
    FindAfter(b, sep, c);
  }

  /** `split(sep)[1]` of `a + sep + b` is `b` when `b` holds no further separator. */
  lemma SecondFieldToEnd(a: string, b: string, sep: string)
    requires |sep| > 0
    requires !Contains(a + sep[..|sep| - 1], sep) && !Contains(b, sep)
    ensures Contains(a + sep + b, sep)
    ensures SecondField(a + sep + b, sep) == b
  {
    FindAfter(a, sep, b);
    assert (a + sep + b)[|a| + |sep|..] == b;
  }

  /** Python's `s.replace(pat, "")`: one left-to-right pass that deletes
      non-overlapping occurrences of `pat`. */
  function RemoveAll(s: string, pat: string): (r: string)
    requires |pat| > 0
    ensures |r| <= |s|
    ensures !Contains(s, pat) ==> r == s
  {
    if |s| < |pat| then s
    else if s[..|pat|] == pat then
      assert Occurs(s, pat, 0);
      RemoveAll(s[|pat|..], pat)
    else
      assert Contains(s[1..], pat) ==> Contains(s, pat) by {
        if Contains(s[1..], pat) {
          var k: nat :| Occurs(s[1..], pat, k);
          assert s[1..][k..k + |pat|] == s[k + 1..k + 1 + |pat|];
          assert Occurs(s, pat, k + 1);
        }
      }
      [s[0]] + RemoveAll(s[1..], pat)
  }

  /** `replace` deletes an occurrence at the front and goes on after it. */
  lemma RemoveAllFront(b: string, pat: string)
    requires |pat| > 0
    ensures RemoveAll(pat + b, pat) == RemoveAll(b, pat)
  {
    assert (pat + b)[..|pat|] == pat;
    assert (pat + b)[|pat|..] == b;
  }

  /** `replace` keeps a character at which no occurrence starts. */
  lemma RemoveAllSkip(s: string, pat: string, j: nat)
    requires |pat| > 0 && j + |pat| <= |s| && !Occurs(s, pat, j)
    ensures RemoveAll(s[j..], pat) == [s[j]] + RemoveAll(s[j + 1..], pat)
  {
    assert s[j..][..|pat|] == s[j..j + |pat|];
    assert s[j..][1..] == s[j + 1..];
  }

  /** `replace` deletes an occurrence at the front. */
  lemma RemoveAllAt(s: string, pat: string, i: nat)
    requires |pat| > 0 && Occurs(s, pat, i)
    ensures RemoveAll(s[i..], pat) == RemoveAll(s[i + |pat|..], pat)
  {
    assert s[i..][..|pat|] == s[i..i + |pat|];
    assert s[i..][|pat|..] == s[i + |pat|..];
  }

  /** A slice followed by more text is its first character followed by
      the rest. */
  lemma SliceFirst(s: string, j: nat, i: nat, more: string)
    requires j < i <= |s|
    ensures [s[j]] + (s[j + 1..i] + more) == s[j..i] + more
  {
    assert s[j..i] == [s[j]] + s[j + 1..i];
  }

  /** From `j` on, `replace` keeps the text before the first occurrence
      and deletes that occurrence. */
  lemma {:induction false} RemoveAllUpTo(s: string, pat: string, j: nat, i: nat)
    requires |pat| > 0 && j <= i && Occurs(s, pat, i)
    requires forall k: nat :: j <= k < i ==> !Occurs(s, pat, k)
    ensures RemoveAll(s[j..], pat) == s[j..i] + RemoveAll(s[i + |pat|..], pat)
    decreases i - j
  {
    if j == i {
      RemoveAllAt(s, pat, i);
    } else {
      assert !Occurs(s, pat, j);
      RemoveAllSkip(s, pat, j);
      RemoveAllUpTo(s, pat, j + 1, i);
      SliceFirst(s, j, i, RemoveAll(s[i + |pat|..], pat));
    }
  }

  /** `replace` keeps text in which no occurrence starts, and deletes the
      first occurrence that follows it. */
  lemma RemoveAllAfter(a: string, pat: string, b: string)
    requires |pat| > 0 && !Contains(a + pat[..|pat| - 1], pat)
    ensures RemoveAll(a + pat + b, pat) == a + RemoveAll(b, pat)
  {
    var s := a + pat + b;
    NoEarlyOccurrence(a, pat, b);
    assert s[|a|..|a| + |pat|] == pat;
    RemoveAllUpTo(s, pat, 0, |a|);
    assert s[0..] == s;
    assert s[0..|a|] == a;
    assert s[|a| + |pat|..] == b;
  }

  /** Every character an occurrence covers is a character of `pat`. */
  lemma OccursCovers(s: string, pat: string, k: nat)
    requires Occurs(s, pat, k)
    ensures forall i :: k <= i < k + |pat| ==> s[i] in pat
  {
    forall i | k <= i < k + |pat| ensures s[i] in pat {
      assert s[i] == s[k..k + |pat|][i - k];
    }
  }

  /** An occurrence of `pat` in `x + [c] + y` lies in `x` or in `y` when `c`
      is not a character of `pat`. */
  lemma ContainsAcross(x: string, c: char, y: string, pat: string)
    requires c !in pat && Contains(x + [c] + y, pat)
    ensures Contains(x, pat) || Contains(y, pat)
  {
    var s := x + [c] + y;
    var k: nat :| Occurs(s, pat, k);
    OccursCovers(s, pat, k);
    assert s[|x|] == c;
    if k + |pat| <= |x| {
      assert s[k..k + |pat|] == x[k..k + |pat|];
      assert Occurs(x, pat, k);
    } else {
      var j: nat := k - |x| - 1;
      assert s[k..k + |pat|] == y[j..j + |pat|];
      assert Occurs(y, pat, j);
    }
  }

  /** Line feeds around a text are stripped with it. */
  lemma StripLines(body: string)
    ensures Strip("\n" + body + "\n") == Strip(body)
  {
    var s := "\n" + body + "\n";
    assert s[1..] == body + ['\n'];
    StripTrailing(body, '\n');
  }

  /** A text without the first character of `pat` does not contain it. */
  lemma AbsentFirst(s: string, pat: string)
    requires |pat| > 0 && pat[0] !in s
    ensures !Contains(s, pat)
  {
    forall k: nat ensures !Occurs(s, pat, k) {
      if k + |pat| <= |s| {
        assert s[k..k + |pat|][0] == s[k];
        assert s[k] in s;
      }
    }
  }

  /** Whitespace after the text is stripped with it. */
  lemma {:induction false} StripTrailing(x: string, c: char)
    requires IsSpace(c)
    ensures Strip(x + [c]) == Strip(x)
    decreases |x|
  {
    if |x| > 0 && IsSpace(x[0]) {
      assert (x + [c])[1..] == x[1..] + [c];
      StripTrailing(x[1..], c);
    } else {
      assert (x + [c])[..|x|] == x;
    }
  }

  function DigitChar(d: nat): char
    requires d < 10
  {
    "0123456789"[d]
  }

  function Digits(n: nat): (r: string)
    ensures |r| > 0
  {
    if n < 10 then [DigitChar(n)] else Digits(n / 10) + [DigitChar(n % 10)]
  }

  /** Python's `str(n)` for an int. */
  function Decimal(n: int): (r: string)
    ensures |r| > 0
  {
    if n < 0 then "-" + Digits(-n) else Digits(n)
  }

  /** Each of the four texts filled into a five-piece template appears in the result. */
  lemma ContainsFourHoles(p1: string, x1: string, p2: string, x2: string, p3: string, x3: string,
                          p4: string, x4: string, p5: string)
    ensures var s := p1 + x1 + p2 + x2 + p3 + x3 + p4 + x4 + p5;
      Contains(s, x1) && Contains(s, x2) && Contains(s, x3) && Contains(s, x4)
  {
    var s := p1 + x1 + p2 + x2 + p3 + x3 + p4 + x4 + p5;
    assert s == p1 + x1 + (p2 + x2 + p3 + x3 + p4 + x4 + p5);
    ContainsMiddle(p1, x1, p2 + x2 + p3 + x3 + p4 + x4 + p5);
    assert s == (p1 + x1 + p2) + x2 + (p3 + x3 + p4 + x4 + p5);
    ContainsMiddle(p1 + x1 + p2, x2, p3 + x3 + p4 + x4 + p5);
    assert s == (p1 + x1 + p2 + x2 + p3) + x3 + (p4 + x4 + p5);
    ContainsMiddle(p1 + x1 + p2 + x2 + p3, x3, p4 + x4 + p5);
    ContainsMiddle(p1 + x1 + p2 + x2 + p3 + x3 + p4, x4, p5);
  }

  /** Both texts filled into a three-piece template appear in the result. */
  lemma ContainsTwoHoles(p1: string, x1: string, p2: string, x2: string, p3: string)
    ensures Contains(p1 + x1 + p2 + x2 + p3, x1) && Contains(p1 + x1 + p2 + x2 + p3, x2)
  {
    assert p1 + x1 + p2 + x2 + p3 == p1 + x1 + (p2 + x2 + p3);
    ContainsMiddle(p1, x1, p2 + x2 + p3);
    ContainsMiddle(p1 + x1 + p2, x2, p3);
  }

  /** `t` appears in `a + t + b`. */
  lemma ContainsMiddle(a: string, t: string, b: string)
    ensures Contains(a + t + b, t)
  {
    assert (a + t + b)[|a|..|a| + |t|] == t;
    assert Occurs(a + t + b, t, |a|);
  }
}
