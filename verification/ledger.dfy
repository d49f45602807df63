/**
 Two separately written readings of the settlement ledger, newest row first.
 
 The panel's reading and the loss gate's agree on the losing streak wherever they read the same rows.
 */
module Ledger {
  const DAY_SECONDS: real := 86400.0

  datatype Settlement = Settlement(pnl: real, settledAt: real)

  /** The rows that won or lost something. */
  function Decisive(h: seq<Settlement>): (d: seq<Settlement>)
    ensures forall i | 0 <= i < |d| :: d[i].pnl != 0.0
  {
    if h == [] then [] else (if h[0].pnl != 0.0 then [h[0]] else []) + Decisive(h[1..])
  }

  /** How many rows of one sign come first. */
  function Leading(d: seq<Settlement>, losing: bool): nat {
    if d == [] || (losing && d[0].pnl >= 0.0) || (!losing && d[0].pnl <= 0.0) then 0 else 1 + Leading(d[1..], losing)
  }

  /** The current streak: the leading run of decisive rows. */
  function Streak(h: seq<Settlement>, losing: bool): nat {
    Leading(Decisive(h), losing)
  }

  function Net(h: seq<Settlement>, since: real): real {
    if h == [] then 0.0 else Net(h[..|h| - 1], since) + if h[|h| - 1].settledAt >= since then h[|h| - 1].pnl else 0.0
  }

  function Sum(h: seq<Settlement>): real {
    if h == [] then 0.0 else Sum(h[..|h| - 1]) + h[|h| - 1].pnl
  }

  function Losses(h: seq<Settlement>, since: real): real {
    if h == [] then 0.0
    else Losses(h[..|h| - 1], since) + if h[|h| - 1].pnl < 0.0 && h[|h| - 1].settledAt >= since then -h[|h| - 1].pnl else 0.0
  }

  function Count(h: seq<Settlement>, losing: bool): nat {
    if h == [] then 0
    else Count(h[..|h| - 1], losing) + if (losing && h[|h| - 1].pnl < 0.0) || (!losing && h[|h| - 1].pnl > 0.0) then 1 else 0
  }

  /** Only one sign can lead. */
  lemma OneStreakOnly(h: seq<Settlement>)
    ensures Streak(h, true) == 0 || Streak(h, false) == 0
  {
  }

  lemma {:induction false} DecisiveConcat(a: seq<Settlement>, b: seq<Settlement>)
    ensures Decisive(a + b) == Decisive(a) + Decisive(b)
    decreases |a|
  {
    if a == [] {
      assert a + b == b;
    } else {
      assert (a + b)[1..] == a[1..] + b;
      DecisiveConcat(a[1..], b);
    }
  }

  /** A settlement that neither won nor lost changes neither streak, wherever it falls. */
  lemma ZeroRowsDoNotCount(a: seq<Settlement>, zero: Settlement, b: seq<Settlement>, losing: bool)
    requires zero.pnl == 0.0
    ensures Streak(a + [zero] + b, losing) == Streak(a + b, losing)
  {
    DecisiveConcat(a + [zero], b);
    DecisiveConcat(a, [zero]);
    DecisiveConcat(a, b);
    assert [zero][1..] == [];
    assert Decisive([zero]) == [];
    assert Decisive(a) + [] == Decisive(a);
  }

  /** The newest row extends a streak of its sign, ends the other one, and a zero row does neither. */
  lemma NextRow(h: seq<Settlement>, losing: bool)
    requires h != []
    ensures Streak(h, losing) ==
              if h[0].pnl == 0.0 then Streak(h[1..], losing)
              else if losing == (h[0].pnl < 0.0) then 1 + Streak(h[1..], losing)
              else 0
  {
    if h[0].pnl != 0.0 {
      assert Decisive(h)[1..] == Decisive(h[1..]);
    } else {
      assert Decisive(h) == Decisive(h[1..]);
    }
  }

  /** Today's net is never worse than today's losses say. */
  lemma {:induction false} NetAtLeastLosses(h: seq<Settlement>, since: real)
    ensures Net(h, since) >= -Losses(h, since) && Losses(h, since) >= 0.0
  {
    if h != [] {
      NetAtLeastLosses(h[..|h| - 1], since);
    }
  }

  // ── the figures over the rows they are about ──────────────────────────────

  /** The rows of a kind, in order. */
  function Only(h: seq<Settlement>, of: Settlement -> bool): (d: seq<Settlement>)
    ensures forall s :: s in d <==> s in h && of(s)
  {
    if h == [] then [] else Only(h[..|h| - 1], of) + if of(h[|h| - 1]) then [h[|h| - 1]] else []
  }

  function Since(since: real): Settlement -> bool {
    (s: Settlement) => s.settledAt >= since
  }

  function LossSince(since: real): Settlement -> bool {
    (s: Settlement) => s.settledAt >= since && s.pnl < 0.0
  }

  function OfSign(losing: bool): Settlement -> bool {
    (s: Settlement) => if losing then s.pnl < 0.0 else 0.0 < s.pnl
  }

  lemma SumLast(d: seq<Settlement>, s: Settlement)
    ensures Sum(d + [s]) == Sum(d) + s.pnl && Sum(d + []) == Sum(d)
  {
    assert (d + [s])[..|d|] == d && d + [] == d;
  }

  /** A net is the sum of the rows since the cutoff. */
  lemma {:induction false} NetIsSum(h: seq<Settlement>, since: real)
    ensures Net(h, since) == Sum(Only(h, Since(since)))
  {
    if h != [] {
      var n := |h| - 1;
      NetIsSum(h[..n], since);
      SumLast(Only(h[..n], Since(since)), h[n]);
    }
  }

  /** Losses are minus the sum of the losing rows since the cutoff. */
  lemma {:induction false} LossesAreSum(h: seq<Settlement>, since: real)
    ensures Losses(h, since) == -Sum(Only(h, LossSince(since)))
  {
    if h != [] {
      var n := |h| - 1;
      LossesAreSum(h[..n], since);
      SumLast(Only(h[..n], LossSince(since)), h[n]);
    }
  }

  /** Wins and losses count the rows of their sign. */
  lemma {:induction false} CountIsOfSign(h: seq<Settlement>, losing: bool)
    ensures Count(h, losing) == |Only(h, OfSign(losing))|
  {
    if h != [] {
      CountIsOfSign(h[..|h| - 1], losing);
    }
  }

  lemma {:induction false} LeadingConcat(a: seq<Settlement>, b: seq<Settlement>, losing: bool)
    ensures Leading(a, losing) <= |a|
    ensures Leading(a + b, losing) == if Leading(a, losing) == |a| then |a| + Leading(b, losing) else Leading(a, losing)
    decreases |a|
  {
    if a == [] {
      assert a + b == b;
    } else {
      assert (a + b)[1..] == a[1..] + b;
      LeadingConcat(a[1..], b, losing);
    }
  }

  lemma {:induction false} AllLead(d: seq<Settlement>)
    requires forall i | 0 <= i < |d| :: d[i].pnl != 0.0
    ensures Leading(d, true) == |d| <==> forall i | 0 <= i < |d| :: d[i].pnl < 0.0
    ensures Leading(d, true) <= |d|
  {
    if d != [] {
      AllLead(d[1..]);
      assert forall i | 1 <= i < |d| :: d[i] == d[1..][i - 1];
    }
  }

  lemma {:induction false} DecisiveMembers(h: seq<Settlement>, s: Settlement)
    ensures s in Decisive(h) <==> s in h && s.pnl != 0.0
  {
    if h != [] {
      DecisiveMembers(h[1..], s);
    }
  }

  /**
   The gate reads the newest 200 rows, the panel the newest 10000. Their losing streaks agree exactly when the
   shorter reading saw a win, or the first decisive row beyond it is not a loss.
   */
  lemma StreaksAgreeIff(h: seq<Settlement>)
    ensures var short := if |h| > 200 then h[..200] else h;
            var long := if |h| > 10000 then h[..10000] else h;
            var beyond := long[|short|..];
            Streak(short, true) == Streak(long, true) <==>
              (exists s | s in short :: s.pnl > 0.0) || Decisive(beyond) == [] || Decisive(beyond)[0].pnl > 0.0
  {
    var short := if |h| > 200 then h[..200] else h;
    var long := if |h| > 10000 then h[..10000] else h;
    var beyond := long[|short|..];
    assert long == short + beyond;
    DecisiveConcat(short, beyond);
    var d := Decisive(short);
    LeadingConcat(d, Decisive(beyond), true);
    AllLead(d);
    if Leading(d, true) == |d| {
      forall s | s in short && s.pnl > 0.0
        ensures false
      {
        DecisiveMembers(short, s);
      }
    } else {
      var i :| 0 <= i < |d| && d[i].pnl >= 0.0;
      DecisiveMembers(short, d[i]);
      assert d[i] in d;
      assert d[i] in short && d[i].pnl > 0.0;
    }
  }

  // ── the two loops ─────────────────────────────────────────────────────────

  datatype Stats = Stats(
    today: real,
    run: real,
    lifetime: real,
    largestWin: real,
    largestLoss: real,
    winningStreak: nat,
    losingStreak: nat,
    settled: nat,
    wins: nat,
    losses: nat)

  /** The two streak loops, on the leading rows still to come. */
  method Streaks(h: seq<Settlement>) returns (winning: nat, losing: nat)
    ensures winning == Streak(h, false) && losing == Streak(h, true)
  {
    winning, losing := 0, 0;
    assert h[0..] == h;
    for k := 0 to |h|
      invariant winning == 0 || losing == 0
      invariant Streak(h, false) == if losing == 0 then winning + Streak(h[k..], false) else 0
      invariant Streak(h, true) == if winning == 0 then losing + Streak(h[k..], true) else 0
    {
      assert h[k..][1..] == h[k + 1..];
      NextRow(h[k..], false);
      NextRow(h[k..], true);
      if h[k].pnl > 0.0 {
        if losing > 0 { break; }
        winning := winning + 1;
      } else if h[k].pnl < 0.0 {
        if winning > 0 { break; }
        losing := losing + 1;
      }
    }
  }

  method LedgerStats(h: seq<Settlement>, now: real, runStart: real) returns (s: Stats)
    ensures s.today == Net(h, now - 86400.0) && s.run == Net(h, runStart) && s.lifetime == Sum(h)
    ensures s.winningStreak == Streak(h, false) && s.losingStreak == Streak(h, true)
    ensures s.wins == Count(h, false) && s.losses == Count(h, true) && s.settled == |h|
    ensures s.largestLoss <= 0.0 <= s.largestWin
    ensures forall i | 0 <= i < |h| :: s.largestLoss <= h[i].pnl <= s.largestWin
    ensures s.largestWin == 0.0 || exists i :: 0 <= i < |h| && h[i].pnl == s.largestWin
    ensures s.largestLoss == 0.0 || exists i :: 0 <= i < |h| && h[i].pnl == s.largestLoss
  {
    var dayStart := now - DAY_SECONDS;
    var today, run, lifetime, largestWin, largestLoss, wins, losses := 0.0, 0.0, 0.0, 0.0, 0.0, 0, 0;
    for k := 0 to |h|
      invariant today == Net(h[..k], dayStart) && run == Net(h[..k], runStart) && lifetime == Sum(h[..k])
      invariant wins == Count(h[..k], false) && losses == Count(h[..k], true)
      invariant largestLoss <= 0.0 <= largestWin
      invariant forall i | 0 <= i < k :: largestLoss <= h[i].pnl <= largestWin
      invariant largestWin == 0.0 || exists i :: 0 <= i < k && h[i].pnl == largestWin
      invariant largestLoss == 0.0 || exists i :: 0 <= i < k && h[i].pnl == largestLoss
    {
      assert h[..k + 1][..k] == h[..k];
      var pnl := h[k].pnl;
      lifetime := lifetime + pnl;
      if h[k].settledAt >= dayStart { today := today + pnl; }
      if h[k].settledAt >= runStart { run := run + pnl; }
      if pnl > largestWin { largestWin := pnl; }
      if pnl < largestLoss { largestLoss := pnl; }
      if pnl > 0.0 { wins := wins + 1; } else if pnl < 0.0 { losses := losses + 1; }
    }
    assert h[..|h|] == h;
    var winning, losing := Streaks(h);
    s := Stats(today, run, lifetime, largestWin, largestLoss, winning, losing, |h|, wins, losses);
  }

  /** The loss gate's reading. On the same rows its streak is the panel's, and its loss covers the panel's net. */
  method RealisedLosses(h: seq<Settlement>, now: real) returns (loss: real, streak: nat)
    ensures loss == Losses(h, now - 86400.0)
    ensures streak == Streak(h, true)
    ensures Net(h, now - 86400.0) >= -loss
  {
    var cutoff := now - DAY_SECONDS;
    loss, streak := 0.0, 0;
    var counting := true;
    assert h[0..] == h;
    for k := 0 to |h|
      invariant loss == Losses(h[..k], cutoff)
      invariant Streak(h, true) == streak + if counting then Streak(h[k..], true) else 0
    {
      assert h[..k + 1][..k] == h[..k] && h[k..][1..] == h[k + 1..];
      NextRow(h[k..], true);
      if h[k].pnl < 0.0 {
        if h[k].settledAt >= cutoff { loss := loss - h[k].pnl; }
        if counting { streak := streak + 1; }
      } else if h[k].pnl > 0.0 {
        counting := false;
      }
    }
    assert h[..|h|] == h;
    NetAtLeastLosses(h, cutoff);
  }
}
