/**
 Comma-separated lists in settings rows: window offsets and per-window buffers.
 
 Blank parts are skipped, a malformed part refuses the whole list, and what is printed parses back.
 */
module Lists {
  import opened Text
  import opened Decimals
  import opened Wrappers

  datatype ConfigError = InvariantViolated

  predicate Increasing(xs: seq<int>) {
    forall i, j | 0 <= i < j < |xs| :: xs[i] < xs[j]
  }

  /** Insert in order; an element already there is not repeated. */
  function InsertInt(xs: seq<int>, x: int): seq<int> {
    if xs == [] || x < xs[0] then [x] + xs
    else if x == xs[0] then xs
    else [xs[0]] + InsertInt(xs[1..], x)
  }

  /** `sorted(set(xs))`. */
  function SortedSet(xs: seq<int>): seq<int> {
    if xs == [] then [] else InsertInt(SortedSet(xs[..|xs| - 1]), xs[|xs| - 1])
  }

  lemma {:induction false} InsertKeepsIncreasing(xs: seq<int>, x: int)
    requires Increasing(xs)
    ensures Increasing(InsertInt(xs, x))
    ensures forall y :: y in InsertInt(xs, x) <==> y == x || y in xs
    decreases |xs|
  {
    if xs != [] && x > xs[0] {
      InsertKeepsIncreasing(xs[1..], x);
      var r := InsertInt(xs[1..], x);
      assert forall y :: y in xs <==> y == xs[0] || y in xs[1..];
      forall j | 0 <= j < |r|
        ensures xs[0] < r[j]
      {
        assert r[j] in r;
        if r[j] in xs[1..] {
          var k :| 0 <= k < |xs[1..]| && xs[1..][k] == r[j];
          assert xs[k + 1] == r[j];
        }
      }
    }
  }

  /** The list's elements, each once, in order. */
  lemma {:induction false} SortedSetIs(xs: seq<int>)
    ensures Increasing(SortedSet(xs)) && forall y :: y in SortedSet(xs) <==> y in xs
    decreases |xs|
  {
    if xs != [] {
      SortedSetIs(xs[..|xs| - 1]);
      InsertKeepsIncreasing(SortedSet(xs[..|xs| - 1]), xs[|xs| - 1]);
      assert xs == xs[..|xs| - 1] + [xs[|xs| - 1]];
    }
  }

  lemma {:induction false} InsertLength(xs: seq<int>, x: int)
    requires Increasing(xs)
    ensures |InsertInt(xs, x)| == if x in xs then |xs| else |xs| + 1
    decreases |xs|
  {
    if xs != [] && x > xs[0] {
      InsertLength(xs[1..], x);
    }
  }

  predicate NoRepeats(xs: seq<int>) {
    forall i, j | 0 <= i < j < |xs| :: xs[i] != xs[j]
  }

  /** Something repeated makes the list of distinct elements shorter, and nothing else does. */
  lemma {:induction false} SortedSetLength(xs: seq<int>)
    ensures |SortedSet(xs)| <= |xs|
    ensures |SortedSet(xs)| == |xs| <==> NoRepeats(xs)
    decreases |xs|
  {
    if xs != [] {
      var init, last := xs[..|xs| - 1], xs[|xs| - 1];
      SortedSetLength(init);
      SortedSetIs(init);
      InsertLength(SortedSet(init), last);
      assert NoRepeats(xs) <==> NoRepeats(init) && last !in init;
    }
  }

  lemma {:induction false} InsertLast(xs: seq<int>, x: int)
    requires Increasing(xs) && (xs != [] ==> xs[|xs| - 1] < x)
    ensures InsertInt(xs, x) == xs + [x]
    decreases |xs|
  {
    if xs != [] {
      assert xs[0] <= xs[|xs| - 1];
      InsertLast(xs[1..], x);
    }
  }

  lemma {:induction false} SortedSetFixed(xs: seq<int>)
    requires Increasing(xs)
    ensures SortedSet(xs) == xs
    decreases |xs|
  {
    if xs != [] {
      SortedSetFixed(xs[..|xs| - 1]);
      InsertLast(xs[..|xs| - 1], xs[|xs| - 1]);
      assert xs == xs[..|xs| - 1] + [xs[|xs| - 1]];
    }
  }

  // ── window lists ──────────────────────────────────────────────────────────

  /** Blank parts are skipped; any other part must be an integer. */
  function ParseInts(parts: seq<string>): Option<seq<int>> {
    if parts == [] then Some([])
    else match ParseInts(parts[..|parts| - 1])
      case None => None
      case Some(xs) =>
        var part := Strip(parts[|parts| - 1]);
        if part == "" then Some(xs)
        else match ParseInt(part)
          case Some(x) => Some(xs + [x])
          case None => None
  }

  function IntTexts(xs: seq<int>): (parts: seq<string>)
    ensures |parts| == |xs|
  {
    seq(|xs|, i requires 0 <= i < |xs| => IntText(xs[i]))
  }

  function WindowsText(xs: seq<int>): string {
    if xs == [] then "" else Join(IntTexts(xs), ',')
  }

  lemma {:induction false} ParseIntsOfTexts(xs: seq<int>)
    ensures ParseInts(IntTexts(xs)) == Some(xs)
    decreases |xs|
  {
    if xs != [] {
      var n := |xs| - 1;
      assert IntTexts(xs)[..n] == IntTexts(xs[..n]);
      ParseIntsOfTexts(xs[..n]);
      IntTextTight(xs[n]);
      StripTight(IntText(xs[n]));
      IntRoundTrip(xs[n]);
      assert xs == xs[..n] + [xs[n]];
    }
  }

  /** A joined list of tight, nonempty parts is tight. */
  lemma {:induction false} JoinTight(parts: seq<string>, c: char)
    requires |parts| >= 1 && forall i | 0 <= i < |parts| :: parts[i] != "" && Tight(parts[i])
    ensures Join(parts, c) != "" && Tight(Join(parts, c))
    decreases |parts|
  {
    if |parts| > 1 {
      JoinTight(parts[1..], c);
      var t := Join(parts[1..], c);
      assert Join(parts, c)[0] == parts[0][0];
      assert Join(parts, c)[|Join(parts, c)| - 1] == t[|t| - 1];
    }
  }

  /** A printed window list parses back to the same list. */
  lemma WindowsRoundTrip(xs: seq<int>)
    requires xs != []
    ensures Strip(WindowsText(xs)) == WindowsText(xs) != ""
    ensures ParseInts(Split(WindowsText(xs), ',')) == Some(xs)
  {
    JoinedList(IntTexts(xs));
    ParseIntsOfTexts(xs);
  }

  // ── buffers ───────────────────────────────────────────────────────────────

  /** `offset:buffer`, at the first colon. */
  function ParseBuffer(part: string): Option<(int, Dec)> {
    if ':' !in part then None
    else
      var offset := Split(part, ':')[0];
      if |part| < |offset| + 1 then None
      else match (ParseInt(offset), ParseDec(part[|offset| + 1..]))
        case (Some(o), Some(d)) => Some((o, d))
        case _ => None
  }

  function ParseBuffers(parts: seq<string>): Option<map<int, Dec>> {
    if parts == [] then Some(map[])
    else match ParseBuffers(parts[..|parts| - 1])
      case None => None
      case Some(m) =>
        var part := Strip(parts[|parts| - 1]);
        if part == "" then Some(m)
        else match ParseBuffer(part)
          case Some((o, d)) => if o in m then None else Some(m[o := d])
          case None => None
  }

  function BufferText(o: int, d: Dec): string {
    IntText(o) + ":" + DecText(d)
  }

  function BufferTexts(xs: seq<int>, m: map<int, Dec>): (parts: seq<string>)
    requires forall x | x in xs :: x in m
    ensures |parts| == |xs|
  {
    seq(|xs|, i requires 0 <= i < |xs| => BufferText(xs[i], m[xs[i]]))
  }

  lemma BufferShape(o: int, d: Dec)
    ensures ',' !in BufferText(o, d) && Tight(BufferText(o, d)) && BufferText(o, d) != ""
  {
    var s := BufferText(o, d);
    IntTextTight(o);
    DecTextTight(d);
    DecTextChars(d);
    assert s[0] == IntText(o)[0] && s[|s| - 1] == DecText(d)[|DecText(d)| - 1];
  }

  /** Cutting at the first separator. */
  lemma CutAtFirst(head: string, tail: string, c: char)
    requires c !in head
    ensures var s := head + [c] + tail; c in s && Split(s, c)[0] == head && s[|head| + 1..] == tail
  {
    var s := head + [c] + tail;
    assert s[|head|] == c;
    SplitPrefix(head, [c] + tail, c);
    assert head + ([c] + tail) == s;
    assert head + "" == head;
  }

  lemma BufferRoundTrip(o: int, d: Dec)
    ensures ParseBuffer(BufferText(o, d)) == Some((o, d))
  {
    IntTextTight(o);
    assert ':' !in IntText(o);
    CutAtFirst(IntText(o), DecText(d), ':');
    IntRoundTrip(o);
    DecRoundTrip(d);
  }

  function Restricted(m: map<int, Dec>, xs: seq<int>): map<int, Dec>
    requires forall x | x in xs :: x in m
  {
    map x | x in xs :: m[x]
  }

  lemma {:induction false} NextBuffer(parts: seq<string>, o: int, d: Dec, m: map<int, Dec>)
    requires parts != [] && parts[|parts| - 1] == BufferText(o, d) && o !in m
    requires ParseBuffers(parts[..|parts| - 1]) == Some(m)
    ensures ParseBuffers(parts) == Some(m[o := d])
  {
    BufferShape(o, d);
    StripTight(BufferText(o, d));
    BufferRoundTrip(o, d);
  }

  lemma RestrictedGrows(xs: seq<int>, m: map<int, Dec>)
    requires xs != [] && Increasing(xs) && forall x | x in xs :: x in m
    ensures var n := |xs| - 1;
            xs[n] !in Restricted(m, xs[..n]) && Restricted(m, xs) == Restricted(m, xs[..n])[xs[n] := m[xs[n]]]
            && BufferTexts(xs, m)[..n] == BufferTexts(xs[..n], m)
  {
    var n := |xs| - 1;
    assert xs == xs[..n] + [xs[n]];
    assert xs[n] !in xs[..n];
  }

  lemma {:induction false} ParseBuffersOfTexts(xs: seq<int>, m: map<int, Dec>, parts: seq<string>)
    requires Increasing(xs) && (forall x | x in xs :: x in m) && parts == BufferTexts(xs, m)
    ensures ParseBuffers(parts) == Some(Restricted(m, xs))
    decreases |xs|
  {
    if xs == [] {
      assert Restricted(m, xs) == map[];
    } else {
      var n := |xs| - 1;
      RestrictedGrows(xs, m);
      ParseBuffersOfTexts(xs[..n], m, parts[..n]);
      NextBuffer(parts, xs[n], m[xs[n]], Restricted(m, xs[..n]));
    }
  }

  lemma BufferTextsShape(xs: seq<int>, m: map<int, Dec>)
    requires forall x | x in xs :: x in m
    ensures Clean(BufferTexts(xs, m), ',')
    ensures forall i | 0 <= i < |xs| :: BufferTexts(xs, m)[i] != "" && Tight(BufferTexts(xs, m)[i])
  {
    forall i | 0 <= i < |xs|
      ensures ',' !in BufferTexts(xs, m)[i] && BufferTexts(xs, m)[i] != "" && Tight(BufferTexts(xs, m)[i])
    {
      BufferShape(xs[i], m[xs[i]]);
    }
  }

  /** A joined list of clean, tight parts is not blank and splits into those parts. */
  lemma {:induction false} JoinedList(parts: seq<string>)
    requires parts != [] && Clean(parts, ',') && forall i | 0 <= i < |parts| :: parts[i] != "" && Tight(parts[i])
    ensures Strip(Join(parts, ',')) == Join(parts, ',') != "" && Split(Join(parts, ','), ',') == parts
  {
    JoinTight(parts, ',');
    StripTight(Join(parts, ','));
    SplitJoin(parts, ',');
  }

  function BuffersText(xs: seq<int>, m: map<int, Dec>): string
    requires xs != [] && forall x | x in xs :: x in m
  {
    Join(BufferTexts(xs, m), ',')
  }

  /** Printed buffers parse back to the same ones. */
  lemma BuffersRoundTrip(xs: seq<int>, m: map<int, Dec>)
    requires xs != [] && Increasing(xs) && forall x :: x in xs <==> x in m
    ensures Strip(BuffersText(xs, m)) != ""
    ensures ParseBuffers(Split(BuffersText(xs, m), ',')) == Some(m)
  {
    BuffersTextSplits(xs, m);
    ParseBuffersOfTexts(xs, m, BufferTexts(xs, m));
    RestrictedToAll(xs, m);
  }

  lemma RestrictedToAll(xs: seq<int>, m: map<int, Dec>)
    requires forall x :: x in xs <==> x in m
    ensures Restricted(m, xs) == m
  {
    forall x
      ensures x in Restricted(m, xs) <==> x in m
    {
      assert x in xs <==> x in m;
    }
  }

  lemma BuffersTextSplits(xs: seq<int>, m: map<int, Dec>)
    requires xs != [] && forall x | x in xs :: x in m
    ensures Strip(BuffersText(xs, m)) != "" && Split(BuffersText(xs, m), ',') == BufferTexts(xs, m)
  {
    BufferTextsShape(xs, m);
    JoinedList(BufferTexts(xs, m));
  }

  // ── the parsing loops ─────────────────────────────────────────────────────

  method ParseWindowList(raw: string) returns (r: Result<seq<int>, ConfigError>)
    ensures match ParseInts(Split(raw, ','))
            case None => r.Err?
            case Some(xs) => r == Ok(xs)
  {
    var parts := Split(raw, ',');
    var out: seq<int> := [];
    assert parts[..0] == [];
    for k := 0 to |parts|
      invariant ParseInts(parts[..k]) == Some(out)
    {
      assert parts[..k + 1][..k] == parts[..k];
      var part := Strip(parts[k]);
      if part == "" { continue; }
      var x := ParseInt(part);
      if x.None? {
        BadPart(parts, k + 1);
        return Err(InvariantViolated);
      }
      out := out + [x.value];
    }
    assert parts[..|parts|] == parts;
    return Ok(out);
  }

  lemma {:induction false} BadPart(parts: seq<string>, k: nat)
    requires k <= |parts| && ParseInts(parts[..k]).None?
    ensures ParseInts(parts).None?
    decreases |parts|
  {
    if k == |parts| {
      assert parts[..k] == parts;
    } else {
      assert parts[..|parts| - 1][..k] == parts[..k];
      BadPart(parts[..|parts| - 1], k);
    }
  }

  method ParseBufferList(raw: string) returns (r: Result<map<int, Dec>, ConfigError>)
    ensures match ParseBuffers(Split(raw, ','))
            case None => r.Err?
            case Some(m) => r == Ok(m)
  {
    var parts := Split(raw, ',');
    var buffers: map<int, Dec> := map[];
    assert parts[..0] == [];
    for k := 0 to |parts|
      invariant ParseBuffers(parts[..k]) == Some(buffers)
    {
      assert parts[..k + 1][..k] == parts[..k];
      var part := Strip(parts[k]);
      if part == "" { continue; }
      var entry := ParseBuffer(part);
      if entry.None? || entry.value.0 in buffers {
        BadBuffer(parts, k + 1);
        return Err(InvariantViolated);
      }
      buffers := buffers[entry.value.0 := entry.value.1];
    }
    assert parts[..|parts|] == parts;
    return Ok(buffers);
  }

  lemma {:induction false} BadBuffer(parts: seq<string>, k: nat)
    requires k <= |parts| && ParseBuffers(parts[..k]).None?
    ensures ParseBuffers(parts).None?
    decreases |parts|
  {
    if k == |parts| {
      assert parts[..k] == parts;
    } else {
      assert parts[..|parts| - 1][..k] == parts[..k];
      BadBuffer(parts[..|parts| - 1], k);
    }
  }
}
