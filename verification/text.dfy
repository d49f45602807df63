/**
 Decimal numerals and separator-joined lists, as the identities and the settings rows write them.
 
 A numeral is the shortest one, so it determines its number; a list whose parts hold no separator is
 recovered by splitting; and a part between two separators can be searched for as text.
 */
module Text {
  import opened Wrappers

  predicate IsDigit(c: char) {
    '0' <= c <= '9'
  }

  predicate AllDigits(s: string) {
    forall i | 0 <= i < |s| :: IsDigit(s[i])
  }

  function DigitChar(d: nat): (c: char)
    requires d < 10
    ensures IsDigit(c)
  {
    (d + 48) as char
  }

  function DigitValue(c: char): (d: nat)
    requires IsDigit(c)
    ensures d < 10
  {
    c as int - 48
  }

  /** The shortest decimal numeral of `n`. */
  function NatText(n: nat): (s: string)
    ensures |s| > 0 && AllDigits(s)
  {
    if n < 10 then [DigitChar(n)] else NatText(n / 10) + [DigitChar(n % 10)]
  }

  function NatValue(s: string): nat
    requires AllDigits(s)
  {
    if s == "" then 0 else NatValue(s[..|s| - 1]) * 10 + DigitValue(s[|s| - 1])
  }

  lemma {:induction false} NatTextValue(n: nat)
    ensures NatValue(NatText(n)) == n
  {
    if n >= 10 {
      NatTextValue(n / 10);
      var s := NatText(n);
      assert s[..|s| - 1] == NatText(n / 10);
    }
  }

  lemma NatTextInjective(m: nat, n: nat)
    requires NatText(m) == NatText(n)
    ensures m == n
  {
    NatTextValue(m);
    NatTextValue(n);
  }

  function Split(s: string, c: char): (parts: seq<string>)
    ensures |parts| >= 1
  {
    if s == "" then [""]
    else
      var rest := Split(s[1..], c);
      if s[0] == c then [""] + rest else [[s[0]] + rest[0]] + rest[1..]
  }

  function Join(parts: seq<string>, c: char): string
    requires |parts| >= 1
  {
    if |parts| == 1 then parts[0] else parts[0] + [c] + Join(parts[1..], c)
  }

  /** No part holds the separator. */
  predicate Clean(parts: seq<string>, c: char) {
    forall i | 0 <= i < |parts| :: c !in parts[i]
  }

  lemma {:induction false} SplitPrefix(p: string, s: string, c: char)
    requires c !in p
    ensures Split(p + s, c) == [p + Split(s, c)[0]] + Split(s, c)[1..]
    decreases |p|
  {
    if p == "" {
      assert p + s == s;
      assert p + Split(s, c)[0] == Split(s, c)[0];
    } else {
      SplitPrefix(p[1..], s, c);
      assert (p + s)[1..] == p[1..] + s;
      assert [p[0]] + (p[1..] + Split(s, c)[0]) == p + Split(s, c)[0];
    }
  }

  /** Splitting undoes joining. */
  lemma {:induction false} SplitJoin(parts: seq<string>, c: char)
    requires |parts| >= 1 && Clean(parts, c)
    ensures Split(Join(parts, c), c) == parts
    decreases |parts|
  {
    if |parts| == 1 {
      SplitPrefix(parts[0], "", c);
      assert parts[0] + "" == parts[0];
    } else {
      var tail := Join(parts[1..], c);
      SplitJoin(parts[1..], c);
      SplitPrefix(parts[0], [c] + tail, c);
      assert parts[0] + ([c] + tail) == Join(parts, c);
      assert ([c] + tail)[1..] == tail;
      assert parts[0] + "" == parts[0];
    }
  }

  /** `rpartition`: everything before the last separator, and everything after it. */
  function RPartition(s: string, c: char): (r: Option<(string, string)>)
    ensures r.None? <==> c !in s
    ensures r.Some? ==> c !in r.value.1 && s == r.value.0 + [c] + r.value.1
  {
    if s == "" then None
    else if s[|s| - 1] == c then Some((s[..|s| - 1], ""))
    else match RPartition(s[..|s| - 1], c)
      case None => None
      case Some(pair) => Some((pair.0, pair.1 + [s[|s| - 1]]))
  }

  lemma {:induction false} RPartitionAt(head: string, tail: string, c: char)
    requires c !in tail
    ensures RPartition(head + [c] + tail, c) == Some((head, tail))
    decreases |tail|
  {
    var s := head + [c] + tail;
    if tail == "" {
      assert s[..|s| - 1] == head;
    } else {
      RPartitionAt(head, tail[..|tail| - 1], c);
      assert s[..|s| - 1] == head + [c] + tail[..|tail| - 1];
      assert tail[..|tail| - 1] + [s[|s| - 1]] == tail;
    }
  }

  /** `a` is a prefix of `s`. */
  predicate StartsWith(s: string, a: string) {
    |a| <= |s| && s[..|a|] == a
  }

  predicate OccursAt(s: string, a: string, i: int) {
    0 <= i <= |s| - |a| && s[i..i + |a|] == a
  }

  predicate Contains(s: string, a: string) {
    exists i | 0 <= i <= |s| - |a| :: OccursAt(s, a, i)
  }

  /** A string that starts with `m` and a separator has `m` as its first part. */
  lemma FirstPart(parts: seq<string>, m: string, c: char)
    requires |parts| >= 1 && Clean(parts, c) && c !in m
    ensures StartsWith(Join(parts, c), m + [c]) <==> |parts| >= 2 && parts[0] == m
  {
    var s := Join(parts, c);
    SplitJoin(parts, c);
    if StartsWith(s, m + [c]) {
      var u := s[|m| + 1..];
      assert s == m + ([c] + u);
      SplitPrefix(m, [c] + u, c);
      assert m + "" == m;
    }
    if |parts| >= 2 && parts[0] == m {
      assert s[..|m| + 1] == m + [c];
    }
  }

  /** An occurrence of `m` between two separators is an inner part. */
  lemma {:induction false} InnerOccurrence(parts: seq<string>, m: string, c: char, i: int)
    requires |parts| >= 1 && Clean(parts, c) && c !in m
    requires OccursAt(Join(parts, c), [c] + m + [c], i)
    ensures exists j | 1 <= j < |parts| - 1 :: parts[j] == m
    decreases |parts|
  {
    var s, key, n := Join(parts, c), [c] + m + [c], |parts[0]|;
    assert s[i] == s[i..i + |key|][0] == c;
    assert forall k | 0 <= k < n :: s[k] == parts[0][k];
    if |parts| == 1 {
      assert false;
    } else {
      var rest := parts[1..];
      var tail := Join(rest, c);
      assert s[n + 1..] == tail;
      assert i >= n;
      if i == n {
        assert tail[..|m| + 1] == s[i..i + |key|][1..] == m + [c];
        FirstPart(rest, m, c);
        assert parts[1] == m;
      } else {
        assert tail[i - n - 1..i - n - 1 + |key|] == s[i..i + |key|];
        InnerOccurrence(rest, m, c, i - n - 1);
        var j :| 1 <= j < |rest| - 1 && rest[j] == m;
        assert parts[j + 1] == m;
      }
    }
  }

  /** An inner part occurs between two separators. */
  lemma {:induction false} InnerPartOccurs(parts: seq<string>, j: int, c: char)
    requires 1 <= j < |parts| - 1
    ensures Contains(Join(parts, c), [c] + parts[j] + [c])
    decreases j
  {
    var s, key, n := Join(parts, c), [c] + parts[j] + [c], |parts[0]|;
    var tail := Join(parts[1..], c);
    assert s[n..] == [c] + tail;
    if j == 1 {
      assert tail[..|parts[1]| + 1] == parts[1] + [c];
      assert s[n..n + |key|] == s[n..][..|key|] == key;
      assert OccursAt(s, key, n);
    } else {
      InnerPartOccurs(parts[1..], j - 1, c);
      var i :| 0 <= i <= |tail| - |key| && OccursAt(tail, key, i);
      assert s[n + 1..] == tail;
      assert s[n + 1 + i..n + 1 + i + |key|] == tail[i..i + |key|];
      assert OccursAt(s, key, n + 1 + i);
    }
  }

  /** Code-point order on strings: the order Python's `sorted` puts them in. */
  predicate LexLeq(a: string, b: string) {
    a == "" || (b != "" && (a[0] < b[0] || (a[0] == b[0] && LexLeq(a[1..], b[1..]))))
  }

  lemma LexTotal(a: string, b: string)
    ensures LexLeq(a, b) || LexLeq(b, a)
  {
  }

  lemma LexTransitive(a: string, b: string, c: string)
    requires LexLeq(a, b) && LexLeq(b, c)
    ensures LexLeq(a, c)
  {
  }
}
