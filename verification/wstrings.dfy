/** The wide-string operations the generator applies to names:
    prefix/suffix tests, substring search (wcsstr), removal of every
    occurrence of a pattern (replace with ""), whitespace trimming and the
    split at the last ':' (find_last_of). */
module WStrings {
  import opened Seqs

  predicate StartsWith(s: string, prefix: string)
  {
    prefix <= s
  }

  predicate EndsWith(s: string, c: char)
  {
    |s| > 0 && s[|s| - 1] == c
  }

  /** wcsstr(s, sub) != NULL: `sub` occurs somewhere in `s` (the empty string occurs everywhere). */
  predicate Contains(s: string, sub: string)
    decreases |s|
  {
    StartsWith(s, sub) || (|s| > 0 && Contains(s[1..], sub))
  }

  /** The string with every occurrence of `pat` removed, scanning left to
      right and never rescanning what was kept (replace(s, pat, "")). */
  function RemoveAll(s: string, pat: string): (r: string)
    requires pat != []
    ensures |r| <= |s|
    ensures multiset(r) <= multiset(s)
    ensures !Contains(s, pat) ==> r == s
    ensures |pat| == 1 ==> pat[0] !in r
    decreases |s|
  {
    if s == [] then []
    else if StartsWith(s, pat) then
      assert s == s[..|pat|] + s[|pat|..];
      RemoveAll(s[|pat|..], pat)
    else
      assert s == [s[0]] + s[1..];
      [s[0]] + RemoveAll(s[1..], pat)
  }

  /** The test that keeps every character but `c`. */
  function Except(c: char): char -> bool
  {
    x => x != c
  }

  /** Removing a one-character pattern keeps every other character, in order. */
  lemma {:induction false} RemoveAllChar(s: string, c: char)
    ensures RemoveAll(s, [c]) == Filter(s, Except(c))
  {
    if s != [] {
      RemoveAllChar(s[1..], c);
      assert s == [s[0]] + s[1..];
      FilterPrepend(s[0], s[1..], Except(c));
    }
  }

  /** A character that is not part of the pattern is never removed: it
      occurs in the result as often as in `s`. */
  lemma {:induction false} RemoveAllKeepsOthers(s: string, pat: string, x: char)
    requires pat != [] && x !in pat
    ensures multiset(RemoveAll(s, pat))[x] == multiset(s)[x]
    decreases |s|
  {
    if s != [] {
      if StartsWith(s, pat) {
        SkipCount(s, pat, x);
        RemoveAllKeepsOthers(s[|pat|..], pat, x);
      } else {
        KeepCount(s, RemoveAll(s[1..], pat), x);
        RemoveAllKeepsOthers(s[1..], pat, x);
      }
    }
  }

  /** Skipping an occurrence of the pattern loses no other character. */
  lemma SkipCount(s: string, pat: string, x: char)
    requires x !in pat && StartsWith(s, pat)
    ensures multiset(s)[x] == multiset(s[|pat|..])[x]
  {
    assert s == pat + s[|pat|..];
    CountSplit(pat, s[|pat|..], x);
  }

  /** Keeping the first character of `s` before `r` adds to `r` what it adds to the rest of `s`. */
  lemma KeepCount(s: string, r: string, x: char)
    requires s != []
    ensures multiset([s[0]] + r)[x] + multiset(s[1..])[x] == multiset(s)[x] + multiset(r)[x]
  {
    assert s == [s[0]] + s[1..];
    CountSplit([s[0]], s[1..], x);
    CountSplit([s[0]], r, x);
  }

  /** The characters iswspace accepts in the ASCII range. */
  predicate IsSpace(c: char)
  {
    c == ' ' || c == '\t' || c == '\n' || c == '\r' || c == '\U{000B}' || c == '\U{000C}'
  }

  function TrimLeft(s: string): (r: string)
    ensures |r| <= |s| && r == s[|s| - |r|..]
    ensures forall k :: 0 <= k < |s| - |r| ==> IsSpace(s[k])
    ensures r == [] || !IsSpace(r[0])
    decreases |s|
  {
    if s != [] && IsSpace(s[0]) then TrimLeft(s[1..]) else s
  }

  function TrimRight(s: string): (r: string)
    ensures |r| <= |s| && r == s[..|r|]
    ensures forall k :: |r| <= k < |s| ==> IsSpace(s[k])
    ensures r == [] || !IsSpace(r[|r| - 1])
    decreases |s|
  {
    if s != [] && IsSpace(s[|s| - 1]) then TrimRight(s[..|s| - 1]) else s
  }

  /** `r` is `s[a..a + |r|]` and everything of `s` around it is white space. */
  predicate SpacePadded(s: string, a: int, r: string)
  {
    && 0 <= a <= |s| - |r|
    && r == s[a..a + |r|]
    && (forall k :: 0 <= k < a ==> IsSpace(s[k]))
    && (forall k :: a + |r| <= k < |s| ==> IsSpace(s[k]))
  }

  /** trim(s): `s` without its leading and trailing white space. */
  function Trim(s: string): (r: string)
    ensures r == [] || (!IsSpace(r[0]) && !IsSpace(r[|r| - 1]))
    ensures exists a :: SpacePadded(s, a, r)
  {
    TrimPadded(s);
    TrimRight(TrimLeft(s))
  }

  lemma TrimPadded(s: string)
    ensures SpacePadded(s, |s| - |TrimLeft(s)|, TrimRight(TrimLeft(s)))
  {
    PaddedCompose(s, |s| - |TrimLeft(s)|, TrimLeft(s), TrimRight(TrimLeft(s)));
  }

  /** White space stripped from the front of `s`, then from the back of what remains, pads `r` inside `s`. */
  lemma PaddedCompose(s: string, a: nat, t: string, r: string)
    requires a <= |s| && t == s[a..] && forall k :: 0 <= k < a ==> IsSpace(s[k])
    requires |r| <= |t| && r == t[..|r|] && forall k :: |r| <= k < |t| ==> IsSpace(t[k])
    ensures SpacePadded(s, a, r)
  {
    assert r == s[a..a + |r|];
    forall k | a + |r| <= k < |s|
      ensures IsSpace(s[k])
    {
      assert s[k] == t[k - a];
    }
  }


  lemma TrimKeepsAbsent(s: string, c: char)
    requires c !in s
    ensures c !in Trim(s)
  {
    var t := TrimLeft(s);
    assert c !in t by {
      assert t == s[|s| - |t|..];
    }
    var r := TrimRight(t);
    assert r == t[..|r|];
  }

  /** The part of a qualified name after its last ':' (the whole name when
      it has none): what follows find_last_of(L"::"). */
  function InnerName(s: string): (inner: string)
    ensures ':' !in inner
    ensures |inner| <= |s| && inner == s[|s| - |inner|..]
    ensures |inner| < |s| ==> s[|s| - |inner| - 1] == ':'
    ensures ':' !in s ==> inner == s
    decreases |s|
  {
    if s == [] then []
    else if s[|s| - 1] == ':' then []
    else
      assert s == s[..|s| - 1] + [s[|s| - 1]];
      InnerName(s[..|s| - 1]) + [s[|s| - 1]]
  }
}
