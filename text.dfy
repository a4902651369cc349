/** String operations the pages rely on: lower-casing, substring search
    (`String.prototype.includes`), `trim`, `join`, `split`, and the decimal
    text of a number together with its `parseInt` reading. */
module Text {
  import opened Wrappers

  /** Lower-cases ASCII letters and leaves every other character alone. */
  function LowerChar(c: char): char {
    if 'A' <= c <= 'Z' then (c as int + 32) as char else c
  }

  function Lower(s: string): (r: string)
    ensures |r| == |s|
    ensures forall i :: 0 <= i < |s| ==> r[i] == LowerChar(s[i])
  {
    if s == [] then [] else [LowerChar(s[0])] + Lower(s[1..])
  }

  /** Lower-casing commutes with concatenation. */
  lemma {:induction false} LowerAppend(a: string, b: string)
    ensures Lower(a + b) == Lower(a) + Lower(b)
  {
    var l := Lower(a + b);
    var r := Lower(a) + Lower(b);
    assert |l| == |r|;
    forall i | 0 <= i < |l| ensures l[i] == r[i] {
      if i < |a| {
        assert (a + b)[i] == a[i];
      } else {
        assert (a + b)[i] == b[i - |a|];
      }
    }
  }

  /** `sub` occurs in `s` starting at position `i`. */
  predicate OccursAt(s: string, sub: string, i: int) {
    0 <= i && i + |sub| <= |s| && s[i..i + |sub|] == sub
  }

  /** `s.includes(sub)`: some position of `s` starts an occurrence of `sub`. */
  function Includes(s: string, sub: string): (b: bool)
    ensures b <==> exists i :: OccursAt(s, sub, i)
    decreases |s|
  {
    if OccursAt(s, sub, 0) then
      true
    else if s == [] then
      false
    else
      var tail := s[1..];
      var b := Includes(tail, sub);
      if b then
        var i :| OccursAt(tail, sub, i);
        assert s[i + 1..i + 1 + |sub|] == tail[i..i + |sub|];
        assert OccursAt(s, sub, i + 1);
        true
      else
        assert forall i :: OccursAt(s, sub, i) ==> i > 0 && OccursAt(tail, sub, i - 1) by {
          forall i | OccursAt(s, sub, i) && i > 0 ensures OccursAt(tail, sub, i - 1) {
            assert tail[i - 1..i - 1 + |sub|] == s[i..i + |sub|];
          }
        }
        false
  }

  /** The empty string is found in every string. */
  lemma IncludesEmpty(s: string)
    ensures Includes(s, "")
  {
    assert OccursAt(s, "", 0);
  }

  /** Whatever occurs in a part of a concatenation occurs in the whole. */
  lemma IncludesInMiddle(a: string, m: string, b: string, sub: string)
    requires Includes(m, sub)
    ensures Includes(a + m + b, sub)
  {
    var i :| OccursAt(m, sub, i);
    var s := a + m + b;
    assert s[|a| + i..|a| + i + |sub|] == m[i..i + |sub|];
    assert OccursAt(s, sub, |a| + i);
  }

  /** `s.toLowerCase().includes(q.toLowerCase())`. */
  predicate IncludesIgnoreCase(s: string, q: string) {
    Includes(Lower(s), Lower(q))
  }

  /** A search query that is empty matches every text. */
  lemma EmptyQueryMatches(s: string)
    ensures IncludesIgnoreCase(s, "")
  {
    IncludesEmpty(Lower(s));
  }

  /** A case-insensitive match inside one field is a match inside any text
      that has that field as a part. */
  lemma IncludesIgnoreCaseInMiddle(a: string, m: string, b: string, q: string)
    requires IncludesIgnoreCase(m, q)
    ensures IncludesIgnoreCase(a + m + b, q)
  {
    LowerAppend(a + m, b);
    LowerAppend(a, m);
    IncludesInMiddle(Lower(a), Lower(m), Lower(b), Lower(q));
  }

  /** The white space that `String.prototype.trim` removes, restricted to the
      ASCII separators, NO-BREAK SPACE and the byte-order mark. */
  predicate IsSpace(c: char) {
    c == ' ' || c == '\t' || c == '\n' || c == '\r'
    || c as int == 0x0B || c as int == 0x0C || c as int == 0xA0 || c as int == 0xFEFF
  }

  /** Every character of `s` is white space (so the empty string is blank). */
  predicate Blank(s: string) {
    forall i :: 0 <= i < |s| ==> IsSpace(s[i])
  }

  function TrimStart(s: string): (r: string)
    ensures |r| <= |s| && r == s[|s| - |r|..]
    ensures r == [] || !IsSpace(r[0])
    ensures forall i :: 0 <= i < |s| - |r| ==> IsSpace(s[i])
  {
    if s != [] && IsSpace(s[0]) then TrimStart(s[1..]) else s
  }

  function TrimEnd(s: string): (r: string)
    ensures |r| <= |s| && r == s[..|r|]
    ensures r == [] || !IsSpace(r[|r| - 1])
    ensures forall i :: |r| <= i < |s| ==> IsSpace(s[i])
  {
    if s != [] && IsSpace(s[|s| - 1]) then TrimEnd(s[..|s| - 1]) else s
  }

  /** `s.trim()`: the slice of `s` left once white space is stripped from
      both ends. Only white space lies before and after it, and it neither
      starts nor ends with white space. */
  function Trim(s: string): (r: string)
    ensures exists k :: OccursAt(s, r, k) && Blank(s[..k]) && Blank(s[k + |r|..])
    ensures r == [] || (!IsSpace(r[0]) && !IsSpace(r[|r| - 1]))
  {
    var t := TrimStart(s);
    var r := TrimEnd(t);
    TrimFramed(s, t, r);
    r
  }

  /** A slice cut out of `s` by dropping white space from the front (leaving
      `t`) and then from the back (leaving `r`) has only white space around it. */
  lemma TrimFramed(s: string, t: string, r: string)
    requires |t| <= |s| && t == s[|s| - |t|..] && forall i :: 0 <= i < |s| - |t| ==> IsSpace(s[i])
    requires |r| <= |t| && r == t[..|r|] && forall i :: |r| <= i < |t| ==> IsSpace(t[i])
    ensures OccursAt(s, r, |s| - |t|)
    ensures Blank(s[..|s| - |t|])
    ensures Blank(s[|s| - |t| + |r|..])
  {
    var k := |s| - |t|;
    SliceOfSuffix(s, k, |r|);
    assert s[k + |r|..] == t[|r|..];
    BlankTail(t, |r|);
    BlankHead(s, k);
  }

  lemma BlankHead(s: string, n: nat)
    requires n <= |s| && forall i :: 0 <= i < n ==> IsSpace(s[i])
    ensures Blank(s[..n])
  {
  }

  lemma SliceOfSuffix(s: string, k: nat, n: nat)
    requires k + n <= |s|
    ensures s[k..k + n] == s[k..][..n]
  {
  }

  lemma BlankTail(t: string, n: nat)
    requires n <= |t| && forall i :: n <= i < |t| ==> IsSpace(t[i])
    ensures Blank(t[n..])
  {
    forall i | 0 <= i < |t| - n ensures IsSpace(t[n..][i]) {
      assert t[n..][i] == t[n + i];
    }
  }

  /** The conditions of `Trim`'s contract pick out a single slice: any slice
      of `s` with only white space around it and none at its ends is `s.trim()`. */
  lemma TrimUnique(s: string, r: string, k: nat)
    requires OccursAt(s, r, k) && Blank(s[..k]) && Blank(s[k + |r|..])
    requires r == [] || (!IsSpace(r[0]) && !IsSpace(r[|r| - 1]))
    ensures Trim(s) == r
  {
    var t := Trim(s);
    var j :| OccursAt(s, t, j) && Blank(s[..j]) && Blank(s[j + |t|..]);
    if r == [] {
      assert Blank(s) by {
        forall i | 0 <= i < |s| ensures IsSpace(s[i]) {
          if i < k { assert s[..k][i] == s[i]; } else { assert s[k..][i - k] == s[i]; }
        }
      }
      TrimEmptyIffBlank(s);
    } else if t == [] {
      TrimEmptyIffBlank(s);
    } else {
      SlicesAgree(s, r, k, t, j);
    }
  }

  /** Two non-empty slices framed by white space and free of it at their ends
      start and end at the same places. */
  lemma SlicesAgree(s: string, r: string, k: nat, t: string, j: nat)
    requires OccursAt(s, r, k) && Blank(s[..k]) && Blank(s[k + |r|..])
    requires OccursAt(s, t, j) && Blank(s[..j]) && Blank(s[j + |t|..])
    requires r != [] && !IsSpace(r[0]) && !IsSpace(r[|r| - 1])
    requires t != [] && !IsSpace(t[0]) && !IsSpace(t[|t| - 1])
    ensures t == r
  {
    assert s[k] == r[0] && s[j] == t[0];
    assert j == k;
    assert s[k + |r| - 1] == r[|r| - 1] && s[k + |t| - 1] == t[|t| - 1];
  }

  /** `!s.trim()` holds exactly for the strings made only of white space. */
  lemma {:induction false} TrimEmptyIffBlank(s: string)
    ensures Trim(s) == "" <==> Blank(s)
  {
    var t := TrimStart(s);
    if !Blank(s) {
      var j :| 0 <= j < |s| && !IsSpace(s[j]);
      assert t[j - (|s| - |t|)] == s[j];
    }
  }

  /** `parts.join(sep)`. */
  function Join(parts: seq<string>, sep: string): string {
    if |parts| == 0 then ""
    else if |parts| == 1 then parts[0]
    else parts[0] + sep + Join(parts[1..], sep)
  }

  /** A joined text starts with its first part. */
  lemma JoinStartsWithFirst(parts: seq<string>, sep: string)
    requires |parts| >= 1
    ensures |parts[0]| <= |Join(parts, sep)|
    ensures Join(parts, sep)[..|parts[0]|] == parts[0]
  {
    if |parts| > 1 {
      assert Join(parts, sep) == parts[0] + (sep + Join(parts[1..], sep));
    }
  }

  /** `s.split(c)` for a one-character separator: the pieces between
      occurrences of `c`; there is always at least one piece. */
  function Split(s: string, c: char): (r: seq<string>)
    ensures |r| >= 1
    decreases |s|
  {
    if s == [] then [""]
    else
      var rest := Split(s[1..], c);
      if s[0] == c then [""] + rest else [[s[0]] + rest[0]] + rest[1..]
  }

  predicate Free(s: string, c: char) {
    forall i :: 0 <= i < |s| ==> s[i] != c
  }

  /** Splitting a piece that does not hold the separator gives that piece. */
  lemma {:induction false} SplitFree(w: string, c: char)
    requires Free(w, c)
    ensures Split(w, c) == [w]
    decreases |w|
  {
    if w != [] {
      SplitFree(w[1..], c);
      assert [w[0]] + w[1..] == w;
    }
  }

  /** Splitting `w + c + t` peels off the piece `w`. */
  lemma {:induction false} SplitCons(w: string, c: char, t: string)
    requires Free(w, c)
    ensures Split(w + [c] + t, c) == [w] + Split(t, c)
    decreases |w|
  {
    var s := w + [c] + t;
    if w == [] {
      assert s[1..] == t;
    } else {
      assert s[1..] == w[1..] + [c] + t;
      SplitCons(w[1..], c, t);
      assert [w[0]] + w[1..] == w;
    }
  }

  /** Splitting a text joined with a separator that occurs in none of the
      parts gives the parts back. */
  lemma {:induction false} SplitJoin(parts: seq<string>, c: char)
    requires |parts| >= 1
    requires forall k :: 0 <= k < |parts| ==> Free(parts[k], c)
    ensures Split(Join(parts, [c]), c) == parts
  {
    if |parts| == 1 {
      SplitFree(parts[0], c);
    } else {
      SplitJoin(parts[1..], c);
      SplitCons(parts[0], c, Join(parts[1..], [c]));
      assert [parts[0]] + parts[1..] == parts;
    }
  }

  predicate IsDigit(c: char) {
    '0' <= c <= '9'
  }

  function DigitChar(d: nat): (c: char)
    requires d < 10
    ensures IsDigit(c) && c as int - '0' as int == d
  {
    ('0' as int + d) as char
  }

  /** `String(n)` for a non-negative integer: its decimal digits, without
      leading zeros. */
  function NatToString(n: nat): (r: string)
    ensures |r| >= 1 && forall i :: 0 <= i < |r| ==> IsDigit(r[i])
    ensures |r| > 1 ==> r[0] != '0'
  {
    if n < 10 then [DigitChar(n)] else NatToString(n / 10) + [DigitChar(n % 10)]
  }

  /** The number a string of decimal digits denotes. */
  function DigitsValue(s: string): nat
    requires forall i :: 0 <= i < |s| ==> IsDigit(s[i])
  {
    if s == [] then 0
    else
      assert IsDigit(s[|s| - 1]);
      DigitsValue(s[..|s| - 1]) * 10 + (s[|s| - 1] as int - '0' as int)
  }

  /** The longest prefix of `s` made of decimal digits. */
  function LeadingDigits(s: string): (r: string)
    ensures |r| <= |s| && r == s[..|r|]
    ensures forall i :: 0 <= i < |r| ==> IsDigit(s[i])
    ensures |r| == |s| || !IsDigit(s[|r|])
  {
    if s != [] && IsDigit(s[0]) then [s[0]] + LeadingDigits(s[1..]) else []
  }

  /** `parseInt(s)` for texts without sign or leading white space: the value of
      the leading digits, or None (JavaScript's NaN) when there are none. */
  function ParseInt(s: string): (r: Option<nat>)
    ensures r.None? <==> (s == [] || !IsDigit(s[0]))
  {
    var d := LeadingDigits(s);
    if d == [] then None else Some(DigitsValue(d))
  }

  lemma {:induction false} DigitsValueOfNatToString(n: nat)
    ensures DigitsValue(NatToString(n)) == n
  {
    if n >= 10 {
      DigitsValueOfNatToString(n / 10);
      var s := NatToString(n);
      assert s[..|s| - 1] == NatToString(n / 10);
    }
  }

  /** `parseInt(String(n)) === n` for every non-negative integer. */
  lemma ParseIntOfNatToString(n: nat)
    ensures ParseInt(NatToString(n)) == Some(n)
  {
    var s := NatToString(n);
    var d := LeadingDigits(s);
    assert d == s;
    DigitsValueOfNatToString(n);
  }

  /** `s.slice(0, n) + "..."` when `s` is longer than `n` characters, and `s`
      itself otherwise. */
  function Truncate(s: string, n: nat): (r: string)
    ensures |s| <= n ==> r == s
    ensures |s| > n ==> |r| == n + 3 && r[..n] == s[..n] && r[n..] == "..."
  {
    if |s| > n then s[..n] + "..." else s
  }

  /** A shown text never exceeds the limit plus the ellipsis, and it always
      begins with the original text cut to the limit. */
  lemma TruncateBounded(s: string, n: nat)
    ensures |Truncate(s, n)| <= n + 3
    ensures var k := if |s| < n then |s| else n; Truncate(s, n)[..k] == s[..k]
  {
  }
}
