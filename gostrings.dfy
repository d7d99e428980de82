/** The few pieces of Go's `strings`, `bytes`, `unicode` and `sort` packages
    that the logger's core relies on, written out so that their behaviour is
    part of the model rather than assumed. Strings are sequences of code
    points; Go compares strings byte by byte in UTF-8, which orders them
    exactly as their code points are ordered here. */
module GoStrings {

  /** unicode.IsSpace: the Latin-1 spaces plus the Unicode White_Space set. */
  predicate IsSpace(c: char) {
    || c == ' ' || c == '\t' || c == '\n' || c == '\r' || c == '\U{000B}' || c == '\U{000C}'
    || c == '\U{0085}' || c == '\U{00A0}' || c == '\U{1680}'
    || ('\U{2000}' <= c <= '\U{200A}')
    || c == '\U{2028}' || c == '\U{2029}' || c == '\U{202F}' || c == '\U{205F}' || c == '\U{3000}'
  }

  /** Leading white space removed (first half of strings.TrimSpace). */
  function TrimLeftSpace(s: string): (r: string)
    ensures |r| <= |s| && r == s[|s| - |r|..]
    ensures r == [] || !IsSpace(r[0])
    ensures forall i :: 0 <= i < |s| - |r| ==> IsSpace(s[i])
  {
    if |s| > 0 && IsSpace(s[0]) then TrimLeftSpace(s[1..]) else s
  }

  /** Trailing white space removed (second half of strings.TrimSpace). */
  function TrimRightSpace(s: string): (r: string)
    ensures |r| <= |s| && r == s[..|r|]
    ensures r == [] || !IsSpace(r[|r| - 1])
    ensures forall i :: |r| <= i < |s| ==> IsSpace(s[i])
  {
    if |s| > 0 && IsSpace(s[|s| - 1]) then TrimRightSpace(s[..|s| - 1]) else s
  }

  lemma ConcatAssoc(a: string, b: string, c: string)
    ensures (a + b) + c == a + (b + c)
  {
  }

  lemma AppendEmpty(a: string)
    ensures a + "" == a
  {
  }

  /** strings.TrimSpace */
  function TrimSpace(s: string): string {
    TrimRightSpace(TrimLeftSpace(s))
  }

  predicate AllSpace(s: string) {
    forall i :: 0 <= i < |s| ==> IsSpace(s[i])
  }

  lemma {:induction false} TrimLeftSpacePrefix(pre: string, t: string)
    requires AllSpace(pre)
    ensures TrimLeftSpace(pre + t) == TrimLeftSpace(t)
  {
    if |pre| > 0 {
      assert (pre + t)[0] == pre[0] && (pre + t)[1..] == pre[1..] + t;
      TrimLeftSpacePrefix(pre[1..], t);
    } else {
      assert pre + t == t;
    }
  }

  lemma {:induction false} TrimRightSpaceSuffix(t: string, post: string)
    requires AllSpace(post)
    ensures TrimRightSpace(t + post) == TrimRightSpace(t)
  {
    if |post| > 0 {
      assert (t + post)[|t + post| - 1] == post[|post| - 1];
      assert (t + post)[..|t + post| - 1] == t + post[..|post| - 1];
      TrimRightSpaceSuffix(t, post[..|post| - 1]);
    } else {
      assert t + post == t;
    }
  }

  lemma {:induction false} TrimLeftSpaceAppend(s: string, post: string)
    requires AllSpace(post)
    ensures TrimLeftSpace(s) == [] ==> TrimLeftSpace(s + post) == []
    ensures TrimLeftSpace(s) != [] ==> TrimLeftSpace(s + post) == TrimLeftSpace(s) + post
  {
    if |s| == 0 {
      TrimLeftSpacePrefix(post, []);
      assert post + [] == post;
    } else if IsSpace(s[0]) {
      assert (s + post)[1..] == s[1..] + post;
      TrimLeftSpaceAppend(s[1..], post);
    }
  }

  /** strings.TrimSpace ignores white space added around its argument. */
  lemma TrimSpaceSurrounded(pre: string, s: string, post: string)
    requires AllSpace(pre) && AllSpace(post)
    ensures TrimSpace(pre + s + post) == TrimSpace(s)
  {
    assert pre + s + post == pre + (s + post);
    TrimLeftSpacePrefix(pre, s + post);
    TrimLeftSpaceAppend(s, post);
    if TrimLeftSpace(s) != [] {
      TrimRightSpaceSuffix(TrimLeftSpace(s), post);
    }
  }

  lemma LowerCharSpace(c: char)
    ensures IsSpace(LowerChar(c)) == IsSpace(c)
  {
  }

  /** Lower-casing and trimming white space commute. */
  lemma {:induction false} ToLowerTrimSpace(s: string)
    ensures ToLower(TrimSpace(s)) == TrimSpace(ToLower(s))
  {
    ToLowerTrimLeft(s);
    ToLowerTrimRight(TrimLeftSpace(s));
  }

  lemma {:induction false} ToLowerTrimLeft(s: string)
    ensures ToLower(TrimLeftSpace(s)) == TrimLeftSpace(ToLower(s))
  {
    if |s| > 0 {
      LowerCharSpace(s[0]);
      assert ToLower(s)[1..] == ToLower(s[1..]);
      ToLowerTrimLeft(s[1..]);
    }
  }

  lemma {:induction false} ToLowerTrimRight(s: string)
    ensures ToLower(TrimRightSpace(s)) == TrimRightSpace(ToLower(s))
  {
    if |s| > 0 {
      LowerCharSpace(s[|s| - 1]);
      assert ToLower(s)[..|s| - 1] == ToLower(s[..|s| - 1]);
      ToLowerTrimRight(s[..|s| - 1]);
    }
  }

  /** Lower-casing twice is lower-casing once. */
  lemma ToLowerIdempotent(s: string)
    ensures ToLower(ToLower(s)) == ToLower(s)
  {
  }

  /** bytes.TrimRight(data, cutset): drops every trailing character found in `cutset`. */
  function TrimRightAny(s: string, cutset: string): (r: string)
    ensures |r| <= |s| && r == s[..|r|]
    ensures r == [] || r[|r| - 1] !in cutset
    ensures forall i :: |r| <= i < |s| ==> s[i] in cutset
  {
    if |s| > 0 && s[|s| - 1] in cutset then TrimRightAny(s[..|s| - 1], cutset) else s
  }

  /** unicode.ToLower restricted to ASCII letters. */
  function LowerChar(c: char): char {
    if 'A' <= c <= 'Z' then (c as int + 32) as char else c
  }

  /** strings.ToLower on ASCII text. */
  function ToLower(s: string): (r: string)
    ensures |r| == |s|
    ensures forall i :: 0 <= i < |s| ==> r[i] == LowerChar(s[i])
  {
    if |s| == 0 then [] else [LowerChar(s[0])] + ToLower(s[1..])
  }

  /** strings.HasPrefix */
  predicate HasPrefix(s: string, prefix: string) {
    |prefix| <= |s| && s[..|prefix|] == prefix
  }

  lemma PrefixAppend(a: string, b: string, c: string)
    requires HasPrefix(a, c)
    ensures HasPrefix(a + b, c)
  {
    assert (a + b)[..|c|] == a[..|c|];
  }

  lemma PrefixOfConcat(a: string, b: string)
    ensures HasPrefix(a + b, a)
  {
    assert (a + b)[..|a|] == a;
  }

  lemma PrefixShorter(s: string, a: string, b: string)
    requires HasPrefix(s, a + b)
    ensures HasPrefix(s, a)
  {
    assert s[..|a|] == (a + b)[..|a|];
  }

  lemma PrefixIndex(a: string, c: string, i: nat)
    requires HasPrefix(a, c) && i < |c|
    ensures i < |a| && a[i] == c[i]
  {
    assert a[..|c|][i] == a[i];
  }

  /** strings.LastIndexByte: the last position holding `c`, or -1. */
  function LastIndex(s: string, c: char): (r: int)
    ensures -1 <= r < |s|
  {
    if |s| == 0 then -1
    else if s[|s| - 1] == c then |s| - 1
    else LastIndex(s[..|s| - 1], c)
  }

  /** LastIndex finds `c`, and no `c` comes after it. */
  lemma {:induction false} LastIndexFinds(s: string, c: char)
    ensures var r := LastIndex(s, c);
            (r >= 0 ==> s[r] == c) && forall i :: r < i < |s| ==> s[i] != c
  {
    if |s| > 0 && s[|s| - 1] != c {
      LastIndexFinds(s[..|s| - 1], c);
    }
  }

  /** strings.Join */
  function Join(parts: seq<string>, sep: string): string {
    if |parts| == 0 then ""
    else if |parts| == 1 then parts[0]
    else parts[0] + sep + Join(parts[1..], sep)
  }

  /** Go's string comparison `a <= b`: lexicographic on code points. */
  predicate LessEq(a: string, b: string) {
    |a| == 0 || (|b| > 0 && (a[0] < b[0] || (a[0] == b[0] && LessEq(a[1..], b[1..]))))
  }

  lemma {:induction false} LessEqTotal(a: string, b: string)
    ensures LessEq(a, b) || LessEq(b, a)
  {
    if |a| > 0 && |b| > 0 && a[0] == b[0] {
      LessEqTotal(a[1..], b[1..]);
    }
  }

  lemma {:induction false} LessEqAntisymmetric(a: string, b: string)
    requires LessEq(a, b) && LessEq(b, a)
    ensures a == b
  {
    if |a| > 0 && |b| > 0 {
      LessEqAntisymmetric(a[1..], b[1..]);
      assert a == [a[0]] + a[1..] && b == [b[0]] + b[1..];
    }
  }

  lemma {:induction false} LessEqTransitive(a: string, b: string, c: string)
    requires LessEq(a, b) && LessEq(b, c)
    ensures LessEq(a, c)
  {
    if |a| > 0 && |b| > 0 && |c| > 0 && a[0] == b[0] && b[0] == c[0] {
      LessEqTransitive(a[1..], b[1..], c[1..]);
    }
  }

  predicate Sorted(s: seq<string>) {
    forall i, j :: 0 <= i < j < |s| ==> LessEq(s[i], s[j])
  }

  /** One step of insertion sort: `x` goes before the first element it does
      not sort after. */
  function Insert(x: string, s: seq<string>): (r: seq<string>)
    ensures multiset(r) == multiset(s) + multiset{x}
  {
    if s == [] || LessEq(x, s[0]) then [x] + s
    else
      assert s == [s[0]] + s[1..];
      [s[0]] + Insert(x, s[1..])
  }

  /** Inserting into a sorted sequence keeps it sorted. */
  lemma {:induction false} InsertSorted(x: string, s: seq<string>)
    requires Sorted(s)
    ensures Sorted(Insert(x, s))
  {
    if s != [] && !LessEq(x, s[0]) {
      var rest := Insert(x, s[1..]);
      InsertSorted(x, s[1..]);
      LessEqTotal(x, s[0]);
      forall k | 0 <= k < |rest| ensures LessEq(s[0], rest[k]) {
        assert rest[k] in multiset(rest);
        if rest[k] != x {
          assert rest[k] in multiset(s[1..]);
          var j :| 0 <= j < |s[1..]| && s[1..][j] == rest[k];
          assert s[j + 1] == rest[k];
        }
      }
    } else if s != [] {
      forall j | 0 <= j < |s| ensures LessEq(x, s[j]) {
        if j > 0 {
          LessEqTransitive(x, s[0], s[j]);
        }
      }
    }
  }

  /** sort.Strings, as an insertion sort: a permutation of its input. */
  function SortStrings(s: seq<string>): (r: seq<string>)
    ensures multiset(r) == multiset(s)
  {
    if s == [] then []
    else
      assert s == [s[0]] + s[1..];
      Insert(s[0], SortStrings(s[1..]))
  }

  /** sort.Strings leaves its result in ascending order. */
  lemma {:induction false} SortStringsSorted(s: seq<string>)
    ensures Sorted(SortStrings(s))
  {
    if s != [] {
      SortStringsSorted(s[1..]);
      InsertSorted(s[0], SortStrings(s[1..]));
    }
  }
}
