/** The order of the main loop keeps the paper venue and the store together. */
module LoopOrder {
  import opened Backend
  import opened Chains
  import Fills
  import opened Ids
  import opened Orders
  import opened Paper
  import opened PaperLoop
  import opened Reprice
  import Submit
  import Sweep
  import Text
  import opened Wrappers

  // Every pass polls a market after trading it and before cancelling in it. Without the poll, an order cancelled
  // over a fill makes the next poll raise.

  // ── what keeps a market polled ────────────────────────────────────────────

  lemma {:induction false} FollowKeepsHistory(w: World, p: Paper, es: seq<Effect>)
    ensures Follow(w, p, es).fills == p.fills
    decreases |es|
  {
    if es != [] {
      FollowKeepsHistory(Apply(w, es[0]), Sees(w, p, es[0]), es[1..]);
    }
  }

  lemma {:induction false} FillsStay(w: World, es: seq<Effect>)
    ensures w.fills.Keys <= ApplyAll(w, es).fills.Keys
    decreases |es|
  {
    if es != [] {
      FillsStay(Apply(w, es[0]), es[1..]);
    }
  }

  lemma {:induction false} TradeElsewhere(t: Tape, x: Cross, ids: seq<OrderId>, m: string)
    requires x.market != m
    ensures History(TradeAll(t, x, ids).venue, m) == History(t.venue, m)
    decreases |ids|
  {
    if ids != [] {
      TradeElsewhere(t, x, ids[..|ids| - 1], m);
    }
  }

  predicate TradesIn(e: Event, m: string) {
    e.Trading? && e.x.market == m
  }

  /** Only a trade of the market can leave it with something to poll. */
  lemma DrainedKept(s: Loop, l: Limits, patience: nat, e: Event, m: string)
    requires Drained(s.w, s.p, m) && !TradesIn(e, m)
    ensures Drained(Step(s, l, patience, e).w, Step(s, l, patience, e).p, m)
  {
    var es := EffectsOf(s, l, patience, e);
    FillsStay(s.w, es);
    if e.Trading? {
      TradeElsewhere(Tape(s.p, e.size, []), e.x, e.ids, m);
    } else {
      FollowKeepsHistory(s.w, s.p, es);
      assert History(Follow(s.w, s.p, es), m) == History(s.p, m);
    }
  }

  // ── sequences of events in loop order ─────────────────────────────────────

  /** The markets traded since their last poll. */
  function StaleAfter(stale: set<string>, e: Event): set<string> {
    match e
    case Trading(x, _, _) => stale + {x.market}
    case Polling(m) => stale - {m}
    case _ => stale
  }

  function StaleAfterAll(stale: set<string>, run: seq<Event>): set<string>
    decreases |run|
  {
    if run == [] then stale else StaleAfterAll(StaleAfter(stale, run[0]), run[1..])
  }

  /** Between a trade of a market and a cancel in it there is a poll of it. */
  predicate InOrder(stale: set<string>, run: seq<Event>)
    decreases |run|
  {
    run == [] || ((run[0].Repricing? || run[0].Sweeping? ==> run[0].id.chain.slug !in stale) && InOrder(StaleAfter(stale, run[0]), run[1..]))
  }

  /** Each event is allowed where it happens; nothing is said of polls. */
  predicate AllowedAlong(s: Loop, l: Limits, patience: nat, run: seq<Event>)
    decreases |run|
  {
    run == [] || (Allowed(s, l, patience, run[0]) && AllowedAlong(Step(s, l, patience, run[0]), l, patience, run[1..]))
  }

  ghost predicate FreshElsewhere(s: Loop, stale: set<string>) {
    forall m | m !in stale :: Drained(s.w, s.p, m)
  }

  lemma StepInOrder(s: Loop, l: Limits, patience: nat, e: Event, stale: set<string>)
    requires LoopOk(s, l) && FreshElsewhere(s, stale) && Enabled(s, l, patience, e)
    ensures FreshElsewhere(Step(s, l, patience, e), StaleAfter(stale, e))
  {
    StepKeeps(s, l, patience, e);
    forall m | m !in StaleAfter(stale, e)
      ensures Drained(Step(s, l, patience, e).w, Step(s, l, patience, e).p, m)
    {
      if !(e.Polling? && e.market == m) {
        DrainedKept(s, l, patience, e, m);
      }
    }
  }

  /** A sequence in loop order needs no further condition, and leaves every market polled that it polls after trading. */
  lemma {:induction false} InOrderIsPossible(s: Loop, l: Limits, patience: nat, run: seq<Event>, stale: set<string>)
    requires LoopOk(s, l) && FreshElsewhere(s, stale) && AllowedAlong(s, l, patience, run) && InOrder(stale, run)
    ensures Possible(s, l, patience, run)
    ensures FreshElsewhere(Final(s, l, patience, run), StaleAfterAll(stale, run))
    decreases |run|
  {
    if run != [] {
      StepInOrder(s, l, patience, run[0], stale);
      StepKeeps(s, l, patience, run[0]);
      InOrderIsPossible(Step(s, l, patience, run[0]), l, patience, run[1..], StaleAfter(stale, run[0]));
    }
  }

  // ── the loop's passes ─────────────────────────────────────────────────────

  /** One live market's part of a pass: the decision's placements, a poll, the reprices. */
  datatype MarketTurn = MarketTurn(market: string, placements: seq<Event>, reprices: seq<Event>)

  /** One pass: the sweep of the market that closed, trades at the books just read, then each live market. */
  datatype Pass = Pass(sweeps: seq<Event>, trades: seq<Event>, turns: seq<MarketTurn>)

  ghost predicate TurnShaped(t: MarketTurn) {
    && (forall e | e in t.placements :: e.Placing?)
    && (forall e | e in t.reprices :: e.Repricing? && e.id.chain.slug == t.market)
  }

  ghost function Markets(turns: seq<MarketTurn>): set<string> {
    set t | t in turns :: t.market
  }

  /** Books are read, and paper trades made, for the live markets only. */
  ghost predicate PassShaped(p: Pass) {
    && (forall e | e in p.sweeps :: e.Sweeping?)
    && (forall e | e in p.trades :: e.Trading? && e.x.market in Markets(p.turns))
    && (forall t | t in p.turns :: TurnShaped(t))
  }

  function TurnEvents(t: MarketTurn): seq<Event> {
    t.placements + [Polling(t.market)] + t.reprices
  }

  function TurnsEvents(turns: seq<MarketTurn>): seq<Event> {
    if turns == [] then [] else TurnEvents(turns[0]) + TurnsEvents(turns[1..])
  }

  function PassEvents(p: Pass): seq<Event> {
    p.sweeps + p.trades + TurnsEvents(p.turns)
  }

  function LoopEvents(passes: seq<Pass>): seq<Event> {
    if passes == [] then [] else PassEvents(passes[0]) + LoopEvents(passes[1..])
  }

  lemma {:induction false} InOrderConcat(stale: set<string>, a: seq<Event>, b: seq<Event>)
    requires InOrder(stale, a) && InOrder(StaleAfterAll(stale, a), b)
    ensures InOrder(stale, a + b) && StaleAfterAll(stale, a + b) == StaleAfterAll(StaleAfterAll(stale, a), b)
    decreases |a|
  {
    if a == [] {
      assert a + b == b;
    } else {
      InOrderConcat(StaleAfter(stale, a[0]), a[1..], b);
      assert (a + b)[1..] == a[1..] + b;
    }
  }

  /** Events that neither trade nor poll, and cancel in markets that are polled. */
  lemma {:induction false} QuietInOrder(stale: set<string>, run: seq<Event>)
    requires forall e | e in run :: !e.Trading? && !e.Polling? && (e.Repricing? || e.Sweeping? ==> e.id.chain.slug !in stale)
    ensures InOrder(stale, run) && StaleAfterAll(stale, run) == stale
    decreases |run|
  {
    if run != [] {
      QuietInOrder(stale, run[1..]);
    }
  }

  lemma {:induction false} TradesInOrder(stale: set<string>, run: seq<Event>, markets: set<string>)
    requires stale <= markets && forall e | e in run :: e.Trading? && e.x.market in markets
    ensures InOrder(stale, run) && StaleAfterAll(stale, run) <= markets
    decreases |run|
  {
    if run != [] {
      assert run[0] in run;
      TradesInOrder(StaleAfter(stale, run[0]), run[1..], markets);
    }
  }

  lemma TurnInOrder(stale: set<string>, t: MarketTurn)
    requires TurnShaped(t)
    ensures InOrder(stale, TurnEvents(t)) && StaleAfterAll(stale, TurnEvents(t)) == stale - {t.market}
  {
    var poll := [Polling(t.market)];
    QuietInOrder(stale, t.placements);
    assert poll[1..] == [] && StaleAfter(stale, poll[0]) == stale - {t.market};
    assert StaleAfterAll(stale - {t.market}, []) == stale - {t.market};
    InOrderConcat(stale, t.placements, poll);
    QuietInOrder(stale - {t.market}, t.reprices);
    InOrderConcat(stale, t.placements + poll, t.reprices);
  }

  lemma {:induction false} TurnsInOrder(stale: set<string>, turns: seq<MarketTurn>)
    requires stale <= Markets(turns) && forall t | t in turns :: TurnShaped(t)
    ensures InOrder(stale, TurnsEvents(turns)) && StaleAfterAll(stale, TurnsEvents(turns)) == {}
    decreases |turns|
  {
    if turns != [] {
      TurnInOrder(stale, turns[0]);
      assert turns == [turns[0]] + turns[1..];
      TurnsInOrder(stale - {turns[0].market}, turns[1..]);
      InOrderConcat(stale, TurnEvents(turns[0]), TurnsEvents(turns[1..]));
    }
  }

  lemma PassInOrder(p: Pass)
    requires PassShaped(p)
    ensures InOrder({}, PassEvents(p)) && StaleAfterAll({}, PassEvents(p)) == {}
  {
    QuietInOrder({}, p.sweeps);
    TradesInOrder({}, p.trades, Markets(p.turns));
    InOrderConcat({}, p.sweeps, p.trades);
    TurnsInOrder(StaleAfterAll({}, p.trades), p.turns);
    InOrderConcat({}, p.sweeps + p.trades, TurnsEvents(p.turns));
  }

  /** However many passes the loop makes, they are in loop order, and each leaves every market polled. */
  lemma {:induction false} LoopInOrder(passes: seq<Pass>)
    requires forall p | p in passes :: PassShaped(p)
    ensures InOrder({}, LoopEvents(passes)) && StaleAfterAll({}, LoopEvents(passes)) == {}
    decreases |passes|
  {
    if passes != [] {
      PassInOrder(passes[0]);
      LoopInOrder(passes[1..]);
      InOrderConcat({}, PassEvents(passes[0]), LoopEvents(passes[1..]));
    }
  }

  /**
   The loop as it is written: after any number of its passes, of whatever placements, trades, reprices
   and sweeps, the run is a possible one, and for every order of every market the local filled size, the
   stored fills and the venue's figure are one number, and the order is live exactly while it rests.
   */
  lemma {:induction false} LoopAgrees(l: Limits, patience: nat, passes: seq<Pass>, id: OrderId)
    requires (forall p | p in passes :: PassShaped(p)) && AllowedAlong(START, l, patience, LoopEvents(passes))
    ensures Possible(START, l, patience, LoopEvents(passes))
    ensures var s := Final(START, l, patience, LoopEvents(passes));
            id in s.w.rows ==>
              && s.w.rows[id].filled == Fills.Total(s.w.fills.Values, id) == VenueFilled(s.p, id)
              && (IsLive(s.w.rows[id].state) <==> id in s.p.resting)
  {
    var run := LoopEvents(passes);
    StartOk(l);
    LoopInOrder(passes);
    InOrderIsPossible(START, l, patience, run, {});
    RunKeeps(START, l, patience, run);
    var s := Final(START, l, patience, run);
    if id in s.w.rows {
      DrainedAgrees(s.w, s.p, id);
      assert RowAgrees(s.w, s.p, id);
    }
  }

  // ── a cancel before the poll ──────────────────────────────────────────────

  /** The venue reports a fill of the order that the store does not hold. */
  ghost predicate Unpolled(s: Loop, id: OrderId) {
    exists f | f in History(s.p, id.chain.slug) :: f.order == id && f.id !in s.w.fills
  }

  /** A poll of the market would raise. */
  predicate PollRaises(s: Loop, m: string) {
    Fills.IngestAll(s.w, m, History(s.p, m)).raised
  }

  /** What a step that may cancel leaves of the order, and of the others. */
  ghost predicate CancelsOnly(s: Loop, s': Loop, id: OrderId) {
    && id in s'.w.rows
    && s'.w.fills == s.w.fills && s'.p.fills == s.p.fills
    && (forall k | k in s.w.rows && k != id :: k in s'.w.rows && s'.w.rows[k] == s.w.rows[k])
    && (s'.w.rows[id].state.Cancelled? || s' == s)
  }

  /** Neither records a fill, nor does the venue's history change. */
  lemma FillsStand(s: Loop, l: Limits, patience: nat, e: Event)
    requires e.Repricing? || e.Sweeping?
    ensures Step(s, l, patience, e).w.fills == s.w.fills && Step(s, l, patience, e).p.fills == s.p.fills
  {
    var es := EffectsOf(s, l, patience, e);
    assert forall i | 0 <= i < |es| :: !es[i].SaveFill?;
    NoFillSaved(s.w, es);
    FollowKeepsHistory(s.w, s.p, es);
  }

  lemma SweepCancelsOnly(s: Loop, l: Limits, patience: nat, e: Event)
    requires LoopOk(s, l) && e.Sweeping? && Allowed(s, l, patience, e)
    ensures CancelsOnly(s, Step(s, l, patience, e), e.id)
  {
    var es, row := EffectsOf(s, l, patience, e), s.w.rows[e.id];
    assert RowAgrees(s.w, s.p, e.id);
    FillsStand(s, l, patience, e);
    assert es[0] == Cancel(e.id, e.reply) && Says(s.p, es[0]);
    Sweep.RetractedCancels(s.w, row, e.reply, Step(s, l, patience, e).w);
  }

  /** This venue refuses a cancel for good, and a reprice it refuses changes nothing. */
  lemma RefusedRepriceIsIdle(s: Loop, l: Limits, patience: nat, e: Event)
    requires e.Repricing? && e.id in s.w.rows && s.w.rows[e.id].id == e.id && Allowed(s, l, patience, e)
    requires EffectsOf(s, l, patience, e) != [] && e.v.cancel.NotAcknowledged?
    ensures Step(s, l, patience, e) == s
  {
    var es, ask := EffectsOf(s, l, patience, e), Cancel(e.id, e.v.cancel);
    assert es[0] == ask && Says(s.p, ask);
    assert es == [ask] + [];
    ApplyAllOne(s.w, ask);
    FollowCons(s.w, s.p, ask, []);
  }

  lemma RepriceCancelsOnly(s: Loop, l: Limits, patience: nat, e: Event)
    requires LoopOk(s, l) && e.Repricing? && Allowed(s, l, patience, e)
    ensures CancelsOnly(s, Step(s, l, patience, e), e.id)
  {
    var es, row := EffectsOf(s, l, patience, e), s.w.rows[e.id];
    assert row.id == e.id by { assert RowAgrees(s.w, s.p, e.id); }
    if es != [] {
      if e.v.cancel.NotAcknowledged? {
        RefusedRepriceIsIdle(s, l, patience, e);
      } else {
        FillsStand(s, l, patience, e);
        AcknowledgedCancels(s.w, l, patience, e.passes, row, e.v, Step(s, l, patience, e).w);
      }
    }
  }

  /**
   Why the poll must come first: from any state in which store and venue agree, a reprice or a sweep
   of a live order makes the next poll of its market raise exactly when it cancelled the order over a
   fill that had not been polled in.
   */
  lemma UnpolledCancelRaises(s: Loop, l: Limits, patience: nat, e: Event)
    requires LoopOk(s, l) && (e.Repricing? || e.Sweeping?) && Allowed(s, l, patience, e)
    ensures var s', m := Step(s, l, patience, e), e.id.chain.slug;
            && e.id in s'.w.rows
            && (PollRaises(s', m) <==> s'.w.rows[e.id].state.Cancelled? && Unpolled(s, e.id))
  {
    var s', m, id := Step(s, l, patience, e), e.id.chain.slug, e.id;
    if e.Sweeping? { SweepCancelsOnly(s, l, patience, e); } else { RepriceCancelsOnly(s, l, patience, e); }
    if s'.w.rows[id].state.Cancelled? {
      EventSound(s, l, patience, e);
      InvAfter(s.w, l, EffectsOf(s, l, patience, e), false);
      NewsIsConsistent(s.w, s.p, m);
      NewsIsRoomy(s.w, s.p, m);
      var news := Fills.News(s.w, History(s.p, m));
      forall f | f in History(s.p, m)
        ensures f.order in s.w.rows && f.size > 0.0
      {
        InHistory(s.w, s.p, m, f);
      }
      Fills.ClosedRefuses(s.w, s'.w, m, History(s.p, m), id);
      assert (exists f | f in news :: f.order == id) <==> Unpolled(s, id);
    } else {
      assert RowAgrees(s.w, s.p, id);
      PollKeeps(s.w, s.p, m);
    }
  }

  // ── runs that get there ───────────────────────────────────────────────────

  lemma AllowedThen(s: Loop, l: Limits, patience: nat, e: Event, rest: seq<Event>)
    requires Allowed(s, l, patience, e) && AllowedAlong(Step(s, l, patience, e), l, patience, rest)
    ensures AllowedAlong(s, l, patience, [e] + rest)
    ensures Final(s, l, patience, [e] + rest) == Final(Step(s, l, patience, e), l, patience, rest)
  {
    assert ([e] + rest)[1..] == rest;
  }

  /** The venue takes on an order it does not hold, and says so. */
  lemma PlacementIsHonest(w: World, p: Paper, row: Row, answer: PlaceAnswer)
    requires row.id !in w.rows && row.id !in p.resting && row.state.Pending? && answer == PlaceAnswerOf(p, row.id)
    ensures Honest(w, p, ReplaceEffects(row, answer))
  {
    var a, b, c := SaveRow(row), Place(row.id, answer), SaveRow(Submit.Settled(row, answer));
    assert ReplaceEffects(row, answer) == [a] + ([b] + ([c] + []));
    FollowCons(w, p, a, [b] + ([c] + []));
    FollowCons(Apply(w, a), p, b, [c] + []);
    FollowCons(Apply(Apply(w, a), b), Placed(p, row), c, []);
  }

  const ACCEPTED: PlaceAnswer := Accepted("paper-" + Text.NatText(1))

  /** An order, and a trade that crosses it for less than its size. */
  predicate Nibbles(row: Row, x: Cross, size: real) {
    && Submit.Fresh(row) && Plain(row.id.chain) && 0.0 < size < row.size
    && x.market == row.id.chain.slug && x.price <= row.price && x.side.None?
    && Distinctive(x.market, row.id.chain.engine)
  }

  function PlacingFirst(row: Row): Event {
    Placing(row, n => ACCEPTED)
  }

  lemma AfterPlacing(l: Limits, patience: nat, row: Row)
    requires Submit.Fresh(row) && Plain(row.id.chain)
    ensures Allowed(START, l, patience, PlacingFirst(row))
    ensures Step(START, l, patience, PlacingFirst(row)) == Loop(AfterPlace(START.w, row, ACCEPTED.venueId), Placed(START.p, row))
    ensures LoopOk(Step(START, l, patience, PlacingFirst(row)), l)
  {
    PlacementIsHonest(START.w, START.p, row, ACCEPTED);
    assert Submit.Attempts(row, n => ACCEPTED, 1) == [Place(row.id, ACCEPTED), SaveRow(Submit.Settled(row, ACCEPTED))];
    assert EffectsOf(START, l, patience, PlacingFirst(row)) == ReplaceEffects(row, ACCEPTED);
    PlacementLeaves(START.w, START.p, row, ACCEPTED);
    StartOk(l);
    StepKeeps(START, l, patience, PlacingFirst(row));
  }

  /** The trade takes its size off the one order there is, which keeps resting. */
  lemma AfterTrading(s: Loop, l: Limits, patience: nat, row: Row, x: Cross, size: real)
    requires Nibbles(row, x, size) && LoopOk(s, l) && s.w == AfterPlace(START.w, row, ACCEPTED.venueId) && s.p == Placed(START.p, row)
    ensures var e := Trading(x, size, [row.id]);
            var s' := Step(s, l, patience, e);
            && Allowed(s, l, patience, e) && LoopOk(s', l)
            && s'.w == s.w && row.id in s'.p.resting && s'.p.resting[row.id].filled == size
            && s'.p.sequence == 2
            && History(s'.p, x.market) == [FillFor(x, row.id, s.p.resting[row.id], size)]
  {
    var e, t := Trading(x, size, [row.id]), Tape(s.p, size, []);
    MatchIsMarket(row.id, x.market);
    assert [row.id][..0] == [];
    assert TradeAll(t, x, [row.id]) == TradeOne(TradeAll(t, x, []), x, row.id);
    assert TradeAll(t, x, []) == t;
    assert Trades(t, x, row.id) && Traded(t, row.id) == size;
    StepKeeps(s, l, patience, e);
  }

  /** Placed, traded, swept: the poll that comes only then raises. */
  lemma {:induction false} UnpolledCancelReached(l: Limits, patience: nat, row: Row, x: Cross, size: real)
    requires Nibbles(row, x, size)
    ensures var run := [PlacingFirst(row), Trading(x, size, [row.id]), Sweeping(row.id, Acknowledged)];
            var s := Final(START, l, patience, run);
            AllowedAlong(START, l, patience, run) && PollRaises(s, x.market)
  {
    var place, trade, swept := PlacingFirst(row), Trading(x, size, [row.id]), Sweeping(row.id, Acknowledged);
    AfterPlacing(l, patience, row);
    var s1 := Step(START, l, patience, place);
    AfterTrading(s1, l, patience, row, x, size);
    var s2 := Step(s1, l, patience, trade);
    SweepIsHonest(s2, l, patience, row.id);
    UnpolledCancelRaises(s2, l, patience, swept);
    Sweep.CancelOneLeaves(s2.w, s2.w.rows[row.id], Acknowledged);
    assert History(s2.p, x.market)[0].id !in s2.w.fills;
    AllowedThen(s2, l, patience, swept, []);
    AllowedThen(s1, l, patience, trade, [swept]);
    AllowedThen(START, l, patience, place, [trade, swept]);
    assert [swept] + [] == [swept] && [trade] + [swept] == [trade, swept] && [place] + [trade, swept] == [place, trade, swept];
  }

  /** The venue acknowledges a cancel of what it holds. */
  lemma SweepIsHonest(s: Loop, l: Limits, patience: nat, id: OrderId)
    requires LoopOk(s, l) && id in s.w.rows && IsLive(s.w.rows[id].state) && id in s.p.resting
    ensures Allowed(s, l, patience, Sweeping(id, Acknowledged))
  {
    assert RowAgrees(s.w, s.p, id);
    var es := EffectsOf(s, l, patience, Sweeping(id, Acknowledged));
    assert es == [es[0]] + ([es[1]] + []);
    FollowCons(s.w, s.p, es[0], [es[1]] + []);
    FollowCons(Apply(s.w, es[0]), Sees(s.w, s.p, es[0]), es[1], []);
  }

  /** A poll that brings in the trade's fill leaves the order PARTIAL at the traded size, on its own terms. */
  lemma AfterPolling(s: Loop, l: Limits, patience: nat, id: OrderId, size: real)
    requires LoopOk(s, l) && id in s.w.rows && id !in s.w.retired && id in s.p.resting && s.p.resting[id].filled == size > 0.0
    ensures var e := Polling(id.chain.slug);
            var s' := Step(s, l, patience, e);
            && Allowed(s, l, patience, e) && LoopOk(s', l) && s'.p == s.p
            && Drained(s'.w, s'.p, id.chain.slug)
            && id in s'.w.rows && SameTerms(s'.w.rows[id], s.w.rows[id])
            && s'.w.rows[id].filled == size && s'.w.rows[id].state.Partial?
  {
    var e := Polling(id.chain.slug);
    IngestSaves(s.w, e.market, History(s.p, e.market));
    SavesAreHonest(s.w, s.p, EffectsOf(s, l, patience, e));
    SavesOnly(s.w, s.p, EffectsOf(s, l, patience, e));
    StepKeeps(s, l, patience, e);
    var s' := Step(s, l, patience, e);
    assert RestsRight(s.w, s.p, id) && RowAgrees(s.w, s.p, id);
    assert RestsRight(s'.w, s'.p, id) && RowAgrees(s'.w, s'.p, id);
    DrainedAgrees(s'.w, s'.p, id);
  }

  lemma {:induction false} SavesAreHonest(w: World, p: Paper, es: seq<Effect>)
    requires forall i | 0 <= i < |es| :: es[i].SaveRow? || es[i].SaveFill?
    ensures Honest(w, p, es)
    decreases |es|
  {
    if es != [] {
      SavesAreHonest(Apply(w, es[0]), p, es[1..]);
    }
  }

  /** What the venue would answer the reprice of a resting order, the second order it takes on. */
  function Obliging(best: real): Venue {
    Venue(Some(best), Acknowledged, Accepted("paper-" + Text.NatText(2)))
  }

  /** The cancel, the save, and what follows, where the cancel is acknowledged. */
  lemma CancelIsHonest(w: World, p: Paper, id: OrderId, gone: Row, rest: seq<Effect>)
    requires id in p.resting && Honest(Apply(Apply(w, Cancel(id, Acknowledged)), SaveRow(gone)), Withdrawn(p, id), rest)
    ensures Honest(w, p, [Cancel(id, Acknowledged), SaveRow(gone)] + rest)
    ensures var w2 := Apply(Apply(w, Cancel(id, Acknowledged)), SaveRow(gone));
            && ApplyAll(w, [Cancel(id, Acknowledged), SaveRow(gone)] + rest) == ApplyAll(w2, rest)
            && Follow(w, p, [Cancel(id, Acknowledged), SaveRow(gone)] + rest) == Follow(w2, Withdrawn(p, id), rest)
  {
    var ask := Cancel(id, Acknowledged);
    assert [ask, SaveRow(gone)] + rest == [ask] + ([SaveRow(gone)] + rest);
    FollowCons(w, p, ask, [SaveRow(gone)] + rest);
    FollowCons(Apply(w, ask), Withdrawn(p, id), SaveRow(gone), rest);
  }

  lemma MoveIsHonest(s: Loop, id: OrderId, gone: Row, next: Row, answer: PlaceAnswer)
    requires id in s.p.resting && id in s.w.rows && gone.id == id
    requires next.id !in s.w.rows && next.id !in s.p.resting && next.id != id && next.state.Pending?
    requires answer == Accepted("paper-" + Text.NatText(s.p.sequence))
    ensures var es := [Cancel(id, Acknowledged), SaveRow(gone)] + ReplaceEffects(next, answer);
            && Honest(s.w, s.p, es)
            && next.id in ApplyAll(s.w, es).rows && ApplyAll(s.w, es).rows[next.id].state.Submitted?
            && next.id in Follow(s.w, s.p, es).resting
  {
    var w2, p1 := Apply(Apply(s.w, Cancel(id, Acknowledged)), SaveRow(gone)), Withdrawn(s.p, id);
    PlacementIsHonest(w2, p1, next, answer);
    CancelIsHonest(s.w, s.p, id, gone, ReplaceEffects(next, answer));
    PlacementLeaves(w2, p1, next, answer);
  }

  /** What a reprice of a partly filled order does once its patience is spent. */
  lemma RepriceEffects(s: Loop, l: Limits, patience: nat, id: OrderId, best: real)
    requires id in s.w.rows && s.w.rows[id].id == id && s.w.rows[id].state.Partial? && id.generation == 0
    requires s.w.rows[id].filled < s.w.rows[id].size
    requires Target(l, id.chain.offset, s.w.rows[id].price, Some(best), s.w.rows[id].direction).Some?
    ensures var row, v := s.w.rows[id], Obliging(best);
            var price := Target(l, id.chain.offset, row.price, v.best, row.direction).value;
            EffectsOf(s, l, patience, Repricing(id, map[id.chain := patience], v)) ==
              [Cancel(id, Acknowledged), SaveRow(Cancelling(row))] + ReplaceEffects(Successor(row, price), v.place)
  {
  }

  /** This venue carries it out, and takes the successor on. */
  lemma RepriceHappens(s: Loop, l: Limits, patience: nat, id: OrderId, best: real)
    requires LoopOk(s, l) && id in s.p.resting && s.p.sequence == 2
    requires id in s.w.rows && s.w.rows[id].state.Partial? && id.generation == 0
    requires s.w.rows[id].filled < s.w.rows[id].size
    requires Target(l, id.chain.offset, s.w.rows[id].price, Some(best), s.w.rows[id].direction).Some?
    ensures var es := EffectsOf(s, l, patience, Repricing(id, map[id.chain := patience], Obliging(best)));
            && Honest(s.w, s.p, es)
            && id.Next() in ApplyAll(s.w, es).rows && ApplyAll(s.w, es).rows[id.Next()].state.Submitted?
            && id.Next() in Follow(s.w, s.p, es).resting
  {
    var v, row := Obliging(best), s.w.rows[id];
    assert row.id == id by { assert RowAgrees(s.w, s.p, id); }
    var next := Successor(row, Target(l, id.chain.offset, row.price, v.best, row.direction).value);
    RepriceEffects(s, l, patience, id, best);
    NoSuccessorBeforeCancel(s.w, l, id);
    assert next.id !in s.p.resting by { assert RestsRight(s.w, s.p, next.id); }
    MoveIsHonest(s, id, Cancelling(row), next, v.place);
  }

  /** It leaves the successor live and resting. */
  lemma AfterRepricing(s: Loop, l: Limits, patience: nat, id: OrderId, best: real)
    requires LoopOk(s, l) && Drained(s.w, s.p, id.chain.slug) && id in s.p.resting && s.p.sequence == 2
    requires id in s.w.rows && s.w.rows[id].state.Partial? && id.generation == 0
    requires s.w.rows[id].filled < s.w.rows[id].size
    requires Target(l, id.chain.offset, s.w.rows[id].price, Some(best), s.w.rows[id].direction).Some?
    ensures var e := Repricing(id, map[id.chain := patience], Obliging(best));
            var s' := Step(s, l, patience, e);
            && Allowed(s, l, patience, e) && LoopOk(s', l)
            && id.Next() in s'.w.rows && IsLive(s'.w.rows[id.Next()].state) && id.Next() in s'.p.resting
  {
    RepriceHappens(s, l, patience, id, best);
    StepKeeps(s, l, patience, Repricing(id, map[id.chain := patience], Obliging(best)));
  }

  lemma PollOfNothing(s: Loop, l: Limits, patience: nat, m: string)
    requires History(s.p, m) == []
    ensures Allowed(s, l, patience, Polling(m)) && Step(s, l, patience, Polling(m)) == s
  {
    assert EffectsOf(s, l, patience, Polling(m)) == [];
  }

  /** Placed in one pass; traded, polled and repriced in the next; the successor swept in a third. */
  function ThreePasses(row: Row, x: Cross, size: real, best: real, patience: nat): seq<Pass> {
    [Pass([], [], [MarketTurn(x.market, [PlacingFirst(row)], [])]),
     Pass([], [Trading(x, size, [row.id])], [MarketTurn(x.market, [], [Repricing(row.id, map[row.id.chain := patience], Obliging(best))])]),
     Pass([Sweeping(row.id.Next(), Acknowledged)], [], [])]
  }

  /** The events of a pass with one market. */
  lemma OneTurnEvents(sweeps: seq<Event>, trades: seq<Event>, t: MarketTurn)
    ensures PassEvents(Pass(sweeps, trades, [t])) == sweeps + trades + t.placements + [Polling(t.market)] + t.reprices
  {
    assert [t][1..] == [];
    assert TurnsEvents([t]) == TurnEvents(t) + TurnsEvents([]);
  }

  lemma EventsOfThree(a: Pass, b: Pass, c: Pass)
    ensures LoopEvents([a, b, c]) == PassEvents(a) + (PassEvents(b) + PassEvents(c))
  {
    assert [a, b, c][1..] == [b, c] && [b, c][1..] == [c] && [c][1..] == [];
    assert LoopEvents([c]) == PassEvents(c) + LoopEvents([]);
    assert LoopEvents([b, c]) == PassEvents(b) + LoopEvents([c]);
  }

  lemma SixInOrder(place: Event, poll: Event, trade: Event, move: Event, swept: Event)
    ensures ([] + [] + [place] + [poll] + []) + (([] + [trade] + [] + [poll] + [move]) + [swept]) ==
              [place] + ([poll] + ([trade] + ([poll] + ([move] + ([swept] + [])))))
  {
  }

  lemma ThreePassesEvents(row: Row, x: Cross, size: real, best: real, patience: nat)
    requires x.market == row.id.chain.slug
    ensures LoopEvents(ThreePasses(row, x, size, best, patience)) ==
              [PlacingFirst(row)] + ([Polling(x.market)] + ([Trading(x, size, [row.id])] + ([Polling(x.market)]
              + ([Repricing(row.id, map[row.id.chain := patience], Obliging(best))] + ([Sweeping(row.id.Next(), Acknowledged)] + [])))))
  {
    var place, trade, swept := PlacingFirst(row), Trading(x, size, [row.id]), Sweeping(row.id.Next(), Acknowledged);
    var move := Repricing(row.id, map[row.id.chain := patience], Obliging(best));
    var first, second := MarketTurn(x.market, [place], []), MarketTurn(x.market, [], [move]);
    EventsOfThree(Pass([], [], [first]), Pass([], [trade], [second]), Pass([swept], [], []));
    OneTurnEvents([], [], first);
    OneTurnEvents([], [trade], second);
    assert PassEvents(Pass([swept], [], [])) == [swept];
    SixInOrder(place, Polling(x.market), trade, move, swept);
  }

  lemma ThreePassesShaped(row: Row, x: Cross, size: real, best: real, patience: nat)
    requires x.market == row.id.chain.slug
    ensures forall p | p in ThreePasses(row, x, size, best, patience) :: PassShaped(p)
  {
  }

  /** Passes of every kind do happen: placed in one, traded, polled and repriced in the next, swept in a third. */
  lemma LoopReached(l: Limits, patience: nat, row: Row, x: Cross, size: real, best: real)
    requires Nibbles(row, x, size) && Target(l, row.id.chain.offset, row.price, Some(best), row.direction).Some?
    ensures var passes := ThreePasses(row, x, size, best, patience);
            (forall p | p in passes :: PassShaped(p)) && AllowedAlong(START, l, patience, LoopEvents(passes))
  {
    var id, m := row.id, x.market;
    var place, poll, trade := PlacingFirst(row), Polling(m), Trading(x, size, [id]);
    var move, swept := Repricing(id, map[id.chain := patience], Obliging(best)), Sweeping(id.Next(), Acknowledged);
    AfterPlacing(l, patience, row);
    var s1 := Step(START, l, patience, place);
    PollOfNothing(s1, l, patience, m);
    AfterTrading(s1, l, patience, row, x, size);
    var s2 := Step(s1, l, patience, trade);
    AfterPolling(s2, l, patience, id, size);
    var s3 := Step(s2, l, patience, poll);
    AfterRepricing(s3, l, patience, id, best);
    var s4 := Step(s3, l, patience, move);
    SweepIsHonest(s4, l, patience, id.Next());
    ThreePassesEvents(row, x, size, best, patience);
    ThreePassesShaped(row, x, size, best, patience);
    AllowedThen(s4, l, patience, swept, []);
    AllowedThen(s3, l, patience, move, [swept] + []);
    AllowedThen(s2, l, patience, poll, [move] + ([swept] + []));
    AllowedThen(s1, l, patience, trade, [poll] + ([move] + ([swept] + [])));
    AllowedThen(s1, l, patience, poll, [trade] + ([poll] + ([move] + ([swept] + []))));
    AllowedThen(START, l, patience, place, [poll] + ([trade] + ([poll] + ([move] + ([swept] + [])))));
  }
}
