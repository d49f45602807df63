/** Repricing: cancel, then place, one tick at a time; never amend. */
module Reprice {
  import opened Ids
  import opened Orders
  import opened Backend
  import opened Chains
  import opened Submit
  import opened Wrappers

  /** The price to move to, or None to stay put. */
  function Target(l: Limits, offset: nat, current: real, best: Option<real>, direction: Direction): Option<real> {
    if best.None? || best.value == current then None
    else
      var candidate := StepPrice(current, direction, l.tick);
      if candidate <= 0.0 || !InBand(l, offset, candidate) then None else Some(candidate)
  }

  /** What the venue will say if asked: the best price (None when unreadable), the cancel, the placement. */
  datatype Venue = Venue(best: Option<real>, cancel: CancelAnswer, place: PlaceAnswer)

  /** Everything one call does: its effects, the pass counters it leaves, the order it returns. */
  datatype Outcome = Outcome(effects: seq<Effect>, passes: map<ChainKey, nat>, row: Row)

  predicate Resting(r: Row) {
    r.state.Submitted? || r.state.Partial?
  }

  /** Whether the repricer considers this order at all on this call. */
  predicate Considered(r: Row) {
    Resting(r) && r.id.generation < MAX_PRICE_RETRIES
  }

  function Passes(passes: map<ChainKey, nat>, c: ChainKey): nat {
    if c in passes then passes[c] else 0
  }

  function Cancelling(row: Row): Row {
    Moved(row, Cancelled, "reprice")
  }

  function Successor(row: Row, price: real): Row {
    NewRow(row.id.Next(), row.direction, price, row.Remaining())
  }

  /** Persist the successor, send it once, record the answer. */
  function ReplaceEffects(next: Row, answer: PlaceAnswer): seq<Effect> {
    [SaveRow(next), Place(next.id, answer), SaveRow(Settled(next, answer))]
  }

  function Move(passes: map<ChainKey, nat>, row: Row, price: real, v: Venue): Outcome {
    if v.cancel.NotAcknowledged? then
      if Classify(v.cancel.why).OutcomeUnknown? then
        var unknown := Moved(row, Indeterminate, v.cancel.why.text);
        Outcome([Cancel(row.id, v.cancel), SaveRow(unknown)], passes, unknown)
      else Outcome([Cancel(row.id, v.cancel)], passes, row)
    else
      var gone, next := Cancelling(row), Successor(row, price);
      if row.Remaining() <= 0.0 then
        Outcome([Cancel(row.id, v.cancel), SaveRow(gone)], passes, gone)
      else
        Outcome(
          [Cancel(row.id, v.cancel), SaveRow(gone)] + ReplaceEffects(next, v.place),
          if v.place.Accepted? then passes[row.id.chain := 0] else passes,
          Settled(next, v.place))
  }

  /** One call of the repricer; `patience` is how many passes an order keeps its price. */
  function RepriceOutcome(l: Limits, patience: nat, passes: map<ChainKey, nat>, row: Row, v: Venue): Outcome {
    if !Considered(row) then Outcome([], passes - {row.id.chain}, row)
    else
      var counted := passes[row.id.chain := Passes(passes, row.id.chain) + 1];
      if counted[row.id.chain] <= patience then Outcome([], counted, row)
      else match Target(l, row.id.chain.offset, row.price, v.best, row.direction)
        case None => Outcome([], counted, row)
        case Some(price) => Move(counted, row, price, v)
  }

  lemma {:induction false} MoveSound(w: World, l: Limits, passes: map<ChainKey, nat>, row: Row, price: real, v: Venue)
    requires Inv(w, l) && row.id in w.rows && w.rows[row.id] == row && Considered(row)
    requires price == StepPrice(row.price, row.direction, l.tick) && price > 0.0 && InBand(l, row.id.chain.offset, price)
    ensures Sound(w, l, Move(passes, row, price, v).effects, false)
  {
    var gone, next, ask := Cancelling(row), Successor(row, price), Cancel(row.id, v.cancel);
    NoSuccessorBeforeCancel(w, l, row.id);
    assert Previous(next.id) == row.id;
    var w1 := Apply(w, ask);
    if v.cancel.NotAcknowledged? {
      if Classify(v.cancel.why).OutcomeUnknown? {
        SoundTwo(w, l, ask, SaveRow(Moved(row, Indeterminate, v.cancel.why.text)), false);
      } else {
        assert [ask][1..] == [];
      }
    } else {
      SoundTwo(w, l, ask, SaveRow(gone), false);
      if row.Remaining() > 0.0 {
        Two([], w, ask, SaveRow(gone));
        var w2 := Apply(w1, SaveRow(gone));
        ReplaceSound(w2, l, next, v.place);
        SoundConcat(w, l, [ask, SaveRow(gone)], ReplaceEffects(next, v.place), false);
      }
    }
  }

  lemma ReplaceSound(w: World, l: Limits, next: Row, answer: PlaceAnswer)
    requires next.id !in w.rows && next.id !in w.accepted && Good(w, l, SaveRow(next), false)
    ensures Sound(w, l, ReplaceEffects(next, answer), false)
  {
    SoundThree(w, l, SaveRow(next), Place(next.id, answer), SaveRow(Settled(next, answer)), false);
  }

  /** A reprice keeps the chain safe whatever the venue answers, at every crash point. */
  lemma {:induction false} RepriceSound(w: World, l: Limits, patience: nat, passes: map<ChainKey, nat>, row: Row, v: Venue)
    requires Inv(w, l) && row.id in w.rows && w.rows[row.id] == row
    ensures Sound(w, l, RepriceOutcome(l, patience, passes, row, v).effects, false)
  {
    var t := Target(l, row.id.chain.offset, row.price, v.best, row.direction);
    if Considered(row) && t.Some? {
      MoveSound(w, l, passes[row.id.chain := Passes(passes, row.id.chain) + 1], row, t.value, v);
    }
  }

  /** The rows a move leaves. */
  lemma MoveLeaves(w: World, passes: map<ChainKey, nat>, row: Row, price: real, v: Venue)
    requires row.id in w.rows && w.rows[row.id] == row && row.id.Next() !in w.rows
    ensures var rows := ApplyAll(w, Move(passes, row, price, v).effects).rows;
            var next := Successor(row, price);
            rows ==
              if v.cancel.NotAcknowledged? then
                (if Classify(v.cancel.why).OutcomeUnknown? then w.rows[row.id := Moved(row, Indeterminate, v.cancel.why.text)] else w.rows)
              else if row.Remaining() <= 0.0 then w.rows[row.id := Cancelling(row)]
              else w.rows[row.id := Cancelling(row)][next.id := Settled(next, v.place)]
  {
    var ask, gone, next := Cancel(row.id, v.cancel), SaveRow(Cancelling(row)), Successor(row, price);
    if v.cancel.NotAcknowledged? {
      if Classify(v.cancel.why).OutcomeUnknown? {
        Two([], w, ask, SaveRow(Moved(row, Indeterminate, v.cancel.why.text)));
      } else {
        ApplyAllOne(w, ask);
      }
    } else {
      Two([], w, ask, gone);
      if row.Remaining() > 0.0 {
        var w2 := ApplyAll(w, [ask, gone]);
        ApplyAllConcat(w, [ask, gone], ReplaceEffects(next, v.place));
        Three([], w2, SaveRow(next), Place(next.id, v.place), SaveRow(Settled(next, v.place)));
        assert next.id !in w2.rows;
        assert w2.rows[next.id := next][next.id := Settled(next, v.place)] == w2.rows[next.id := Settled(next, v.place)];
      }
    }
  }

  /** What a move leaves of the world. */
  lemma {:induction false} MoveReaches(w: World, passes: map<ChainKey, nat>, row: Row, price: real, v: Venue)
    requires row.id in w.rows && w.rows[row.id] == row && row.id.Next() !in w.rows
    ensures var w' := ApplyAll(w, Move(passes, row, price, v).effects);
            if v.cancel.NotAcknowledged? then
              && w'.accepted == w.accepted && w'.retired == w.retired
              && w'.rows == if Classify(v.cancel.why).OutcomeUnknown? then w.rows[row.id := Moved(row, Indeterminate, v.cancel.why.text)] else w.rows
            else if row.Remaining() <= 0.0 then
              w'.rows == w.rows[row.id := Cancelling(row)] && w'.accepted == w.accepted && w'.retired == w.retired + {row.id}
            else
              && w'.rows == w.rows[row.id := Cancelling(row)][row.id.Next() := Settled(Successor(row, price), v.place)]
              && w'.accepted == (if Reached(v.place) then w.accepted + [row.id.Next()] else w.accepted)
              && w'.retired == w.retired + {row.id}
  {
    MoveLeaves(w, passes, row, price, v);
    var ask, gone, next := Cancel(row.id, v.cancel), SaveRow(Cancelling(row)), Successor(row, price);
    if v.cancel.NotAcknowledged? {
      if Classify(v.cancel.why).OutcomeUnknown? {
        Two([], w, ask, SaveRow(Moved(row, Indeterminate, v.cancel.why.text)));
      } else {
        ApplyAllOne(w, ask);
      }
    } else {
      Two([], w, ask, gone);
      if row.Remaining() > 0.0 {
        ApplyAllConcat(w, [ask, gone], ReplaceEffects(next, v.place));
        Three([], ApplyAll(w, [ask, gone]), SaveRow(next), Place(next.id, v.place), SaveRow(Settled(next, v.place)));
      }
    }
  }

  /** One tick further into the book: up for UP, down for DOWN. */
  function OneTickOn(l: Limits, row: Row): real {
    match row.direction
    case Up => row.price + l.tick
    case Down => row.price - l.tick
  }

  /**
   The order rests, has retries left and has rested out its patience, the book's best price can be read
   and is not the order's own, and one tick on is a positive price within its window's band.
   */
  predicate Moves(l: Limits, patience: nat, passes: map<ChainKey, nat>, row: Row, v: Venue) {
    && row.state in {Submitted, Partial} && row.id.generation < 3
    && (if row.id.chain in passes then passes[row.id.chain] else 0) >= patience
    && v.best.Some? && v.best.value != row.price
    && row.id.chain.offset in l.bands
    && var (low, high), price := l.bands[row.id.chain.offset], OneTickOn(l, row);
       0.0 < price && low <= price <= high
  }

  /** A call asks the venue for something exactly when the order moves, and a cancel is what it asks first; what it counts. */
  lemma MovesExactlyWhen(l: Limits, patience: nat, passes: map<ChainKey, nat>, row: Row, v: Venue)
    ensures var o, chain := RepriceOutcome(l, patience, passes, row, v), row.id.chain;
            && (o.effects != [] <==> Moves(l, patience, passes, row, v))
            && (o.effects != [] ==> o.effects[0] == Cancel(row.id, v.cancel))
            && (o.effects == [] ==> o.row == row)
            && o.passes == (if row.state !in {Submitted, Partial} || row.id.generation >= 3 then passes - {chain}
                            else if Moves(l, patience, passes, row, v) && v.cancel.Acknowledged? && row.filled < row.size && v.place.Accepted?
                            then passes[chain := 0]
                            else passes[chain := (if chain in passes then passes[chain] else 0) + 1])
  {
  }

  lemma MovesOneTick(l: Limits, patience: nat, passes: map<ChainKey, nat>, row: Row, v: Venue)
    requires Moves(l, patience, passes, row, v)
    ensures RepriceOutcome(l, patience, passes, row, v) ==
              Move(passes[row.id.chain := Passes(passes, row.id.chain) + 1], row, OneTickOn(l, row), v)
  {
  }

  /**
   What one call does, whatever came before. It leaves all as it was unless the order moves. Then, once
   the venue confirms the cancel, the order is CANCELLED and what it left unfilled is placed exactly one
   tick on, under the next id; with nothing left unfilled it is CANCELLED and that is all; a cancel whose
   outcome is unknown makes it INDETERMINATE; and a refused one leaves it.
   */
  lemma RepriceDoes(w: World, l: Limits, patience: nat, passes: map<ChainKey, nat>, row: Row, v: Venue)
    requires Inv(w, l) && row.id in w.rows && w.rows[row.id] == row
    ensures var o := RepriceOutcome(l, patience, passes, row, v);
            var w' := ApplyAll(w, o.effects);
            var gone := row.(state := Cancelled, reason := "reprice");
            && (o.effects != [] <==> Moves(l, patience, passes, row, v))
            && (!Moves(l, patience, passes, row, v) ==> w' == w)
            && (Moves(l, patience, passes, row, v) ==>
                  if v.cancel.NotAcknowledged? then
                    && w'.accepted == w.accepted && w'.retired == w.retired
                    && if v.cancel.why.ConnectionLost? || v.cancel.why.CancelAckTimeout? || v.cancel.why.ForeignException?
                       then w'.rows.Keys == w.rows.Keys && w'.rows[row.id].state.Indeterminate? && w'.rows == w.rows[row.id := w'.rows[row.id]]
                       else w'.rows == w.rows
                  else if row.filled >= row.size then
                    && w'.rows == w.rows[row.id := gone]
                    && w'.accepted == w.accepted && w'.retired == w.retired + {row.id}
                  else
                    && w'.rows == w.rows[row.id := gone][row.id.Next() :=
                         Settled(NewRow(row.id.Next(), row.direction, OneTickOn(l, row), row.size - row.filled), v.place)]
                    && w'.accepted == (if Reached(v.place) then w.accepted + [row.id.Next()] else w.accepted)
                    && w'.retired == w.retired + {row.id})
  {
    assert RowOk(row.id, row);
    MovesExactlyWhen(l, patience, passes, row, v);
    if Moves(l, patience, passes, row, v) {
      MovesOneTick(l, patience, passes, row, v);
      NoSuccessorBeforeCancel(w, l, row.id);
      MoveReaches(w, passes[row.id.chain := Passes(passes, row.id.chain) + 1], row, OneTickOn(l, row), v);
      assert Cancelling(row) == row.(state := Cancelled, reason := "reprice");
      assert row.filled < row.size ==>
               Successor(row, OneTickOn(l, row)) == NewRow(row.id.Next(), row.direction, OneTickOn(l, row), row.size - row.filled);
    }
  }

  /** The order handed back is on record as handed back. */
  lemma HandedBackOnRecord(w: World, l: Limits, patience: nat, passes: map<ChainKey, nat>, row: Row, v: Venue)
    requires Inv(w, l) && row.id in w.rows && w.rows[row.id] == row && IsLive(row.state)
    ensures var o := RepriceOutcome(l, patience, passes, row, v);
            var w' := ApplyAll(w, o.effects);
            && o.row.id in w'.rows && w'.rows[o.row.id] == o.row
            && (o.row.id != row.id ==>
                  o.row.id == row.id.Next() && o.row.id !in w.rows && w'.rows == w.rows[row.id := Cancelling(row)][o.row.id := o.row])
            && (o.row.id == row.id ==> w'.rows == w.rows[row.id := o.row])
  {
    NoSuccessorBeforeCancel(w, l, row.id);
    var o := RepriceOutcome(l, patience, passes, row, v);
    var t := Target(l, row.id.chain.offset, row.price, v.best, row.direction);
    if t.Some? && o.effects != [] {
      MoveLeaves(w, passes[row.id.chain := Passes(passes, row.id.chain) + 1], row, t.value, v);
    }
  }

  /** An acknowledged cancel cancels the order, and moves no other row there was. */
  lemma AcknowledgedCancels(w: World, l: Limits, patience: nat, passes: map<ChainKey, nat>, row: Row, v: Venue, w': World)
    requires Inv(w, l) && row.id in w.rows && w.rows[row.id] == row && IsLive(row.state)
    requires RepriceOutcome(l, patience, passes, row, v).effects != [] && v.cancel.Acknowledged?
    requires w' == ApplyAll(w, RepriceOutcome(l, patience, passes, row, v).effects)
    ensures row.id in w'.rows && w'.rows[row.id].state.Cancelled?
    ensures forall k | k in w.rows && k != row.id :: k in w'.rows && w'.rows[k] == w.rows[k]
  {
    HandedBackOnRecord(w, l, patience, passes, row, v);
  }

  /** Afterwards the order handed back is on record as handed back, and nothing else of its chain is live. */
  lemma RepriceHandsBack(w: World, l: Limits, patience: nat, passes: map<ChainKey, nat>, row: Row, v: Venue, id: OrderId)
    requires Inv(w, l) && row.id in w.rows && w.rows[row.id] == row && IsLive(row.state) && id.chain == row.id.chain
    ensures var o := RepriceOutcome(l, patience, passes, row, v);
            var w' := ApplyAll(w, o.effects);
            && o.row.id in w'.rows && w'.rows[o.row.id] == o.row
            && (id in w'.rows && IsLive(w'.rows[id].state) ==> id == o.row.id)
            && (o.row.id != row.id ==> o.row.id == row.id.Next() && o.row.id !in w.rows)
  {
    HandedBackOnRecord(w, l, patience, passes, row, v);
    if id in w.rows && IsLive(w.rows[id].state) {
      OneLivePerChain(w, l, row.id, id);
    }
  }

  /** A reprice touches its own chain only. */
  lemma RepriceOwnChain(w: World, l: Limits, patience: nat, passes: map<ChainKey, nat>, row: Row, v: Venue, other: OrderId)
    requires other.chain != row.id.chain
    ensures var w' := ApplyAll(w, RepriceOutcome(l, patience, passes, row, v).effects);
            (other in w'.rows <==> other in w.rows) && (other in w.rows ==> w'.rows[other] == w.rows[other])
  {
    SparedRowKept(w, RepriceOutcome(l, patience, passes, row, v).effects, other);
  }

  // ── one polling pass over a market's unfilled orders ──────────────────────

  /** Orders the pass may reprice: live, unfilled, placed by the engine, in a window that still has a repricer. */
  function OpenIds(w: World, l: Limits, slug: string, engine: string): set<OrderId> {
    set id | id in IdsOf(w.rows, slug, true) && w.rows[id].Remaining() > 0.0 && id.chain.engine == engine && id.chain.offset in l.bands
  }

  predicate AllOpen(w: World, ids: seq<OrderId>) {
    && (forall id | id in ids :: id in w.rows && w.rows[id].id == id)
    && (forall j, k | 0 <= j < k < |ids| :: ids[j].chain != ids[k].chain)
  }

  function RepriceAll(w: World, l: Limits, patience: nat, passes: map<ChainKey, nat>, ids: seq<OrderId>, v: OrderId -> Venue)
    : (r: (seq<Effect>, map<ChainKey, nat>))
    requires forall id | id in ids :: id in w.rows
    decreases |ids|
  {
    if ids == [] then ([], passes)
    else
      var n := |ids| - 1;
      var before := RepriceAll(w, l, patience, passes, ids[..n], v);
      var last := RepriceOutcome(l, patience, before.1, w.rows[ids[n]], v(ids[n]));
      (before.0 + last.effects, last.passes)
  }

  /** Repricing some chains leaves every other chain as the pass found it. */
  lemma {:induction false} RepriceAllOwnChains(w: World, l: Limits, patience: nat, passes: map<ChainKey, nat>, ids: seq<OrderId>, v: OrderId -> Venue, other: OrderId)
    requires AllOpen(w, ids) && forall k | 0 <= k < |ids| :: ids[k].chain != other.chain
    ensures var w' := ApplyAll(w, RepriceAll(w, l, patience, passes, ids, v).0);
            (other in w'.rows <==> other in w.rows) && (other in w.rows ==> w'.rows[other] == w.rows[other])
    decreases |ids|
  {
    if ids != [] {
      var n := |ids| - 1;
      var before := RepriceAll(w, l, patience, passes, ids[..n], v);
      RepriceAllOwnChains(w, l, patience, passes, ids[..n], v, other);
      assert w.rows[ids[n]].id.chain == ids[n].chain;
      RepriceOwnChain(ApplyAll(w, before.0), l, patience, before.1, w.rows[ids[n]], v(ids[n]), other);
      ApplyAllConcat(w, before.0, RepriceOutcome(l, patience, before.1, w.rows[ids[n]], v(ids[n])).effects);
    }
  }

  /** What effects leave of one row depends on nothing but that row. */
  lemma {:induction false} SameEffectsSameRow(w: World, u: World, es: seq<Effect>, id: OrderId)
    requires (id in w.rows <==> id in u.rows) && (id in w.rows ==> w.rows[id] == u.rows[id])
    ensures var (w', u') := (ApplyAll(w, es), ApplyAll(u, es));
            (id in w'.rows <==> id in u'.rows) && (id in w'.rows ==> w'.rows[id] == u'.rows[id])
    decreases |es|
  {
    if es != [] {
      SameEffectsSameRow(Apply(w, es[0]), Apply(u, es[0]), es[1..], id);
    }
  }

  function CountAt(passes: map<ChainKey, nat>, c: ChainKey): Option<nat> {
    if c in passes then Some(passes[c]) else None
  }

  /** A call reads and leaves the counter of its own chain only. */
  lemma OwnCounter(l: Limits, patience: nat, p: map<ChainKey, nat>, q: map<ChainKey, nat>, row: Row, v: Venue, c: ChainKey)
    ensures CountAt(p, row.id.chain) == CountAt(q, row.id.chain) ==>
              && RepriceOutcome(l, patience, p, row, v).effects == RepriceOutcome(l, patience, q, row, v).effects
              && CountAt(RepriceOutcome(l, patience, p, row, v).passes, row.id.chain) == CountAt(RepriceOutcome(l, patience, q, row, v).passes, row.id.chain)
    ensures c != row.id.chain ==> CountAt(RepriceOutcome(l, patience, p, row, v).passes, c) == CountAt(p, c)
  {
    MovesExactlyWhen(l, patience, p, row, v);
    MovesExactlyWhen(l, patience, q, row, v);
  }

  lemma {:induction false} OtherCounters(w: World, l: Limits, patience: nat, passes: map<ChainKey, nat>, ids: seq<OrderId>, v: OrderId -> Venue, c: ChainKey)
    requires (forall id | id in ids :: id in w.rows && w.rows[id].id == id) && forall k | 0 <= k < |ids| :: ids[k].chain != c
    ensures CountAt(RepriceAll(w, l, patience, passes, ids, v).1, c) == CountAt(passes, c)
    decreases |ids|
  {
    if ids != [] {
      var n := |ids| - 1;
      OtherCounters(w, l, patience, passes, ids[..n], v, c);
      var before := RepriceAll(w, l, patience, passes, ids[..n], v).1;
      OwnCounter(l, patience, before, before, w.rows[ids[n]], v(ids[n]), c);
    }
  }

  /** A pass does for every order it visits, and leaves of its counter, what one call on that order alone would. */
  lemma {:induction false} PassReachesEach(w: World, l: Limits, patience: nat, passes: map<ChainKey, nat>, ids: seq<OrderId>, v: OrderId -> Venue, k: nat, id: OrderId)
    requires AllOpen(w, ids) && k < |ids| && id.chain == ids[k].chain
    ensures var all, one := RepriceAll(w, l, patience, passes, ids, v), RepriceOutcome(l, patience, passes, w.rows[ids[k]], v(ids[k]));
            var (w', w1) := (ApplyAll(w, all.0), ApplyAll(w, one.effects));
            && (id in w'.rows <==> id in w1.rows) && (id in w1.rows ==> w'.rows[id] == w1.rows[id])
            && CountAt(all.1, id.chain) == CountAt(one.passes, id.chain)
    decreases |ids|
  {
    var n := |ids| - 1;
    var before := RepriceAll(w, l, patience, passes, ids[..n], v);
    var w1, last := ApplyAll(w, before.0), RepriceOutcome(l, patience, before.1, w.rows[ids[n]], v(ids[n]));
    assert ids[n] in ids && ids[k] in ids;
    ApplyAllConcat(w, before.0, last.effects);
    if k == n {
      RepriceAllOwnChains(w, l, patience, passes, ids[..n], v, id);
      OtherCounters(w, l, patience, passes, ids[..n], v, id.chain);
      OwnCounter(l, patience, before.1, passes, w.rows[ids[n]], v(ids[n]), id.chain);
      SameEffectsSameRow(w1, w, last.effects, id);
    } else {
      PassReachesEach(w, l, patience, passes, ids[..n], v, k, id);
      RepriceOwnChain(w1, l, patience, before.1, w.rows[ids[n]], v(ids[n]), id);
      OwnCounter(l, patience, before.1, before.1, w.rows[ids[n]], v(ids[n]), id.chain);
    }
  }

  lemma {:induction false} RepriceAllSound(w: World, l: Limits, patience: nat, passes: map<ChainKey, nat>, ids: seq<OrderId>, v: OrderId -> Venue)
    requires Inv(w, l) && AllOpen(w, ids)
    ensures Sound(w, l, RepriceAll(w, l, patience, passes, ids, v).0, false)
    decreases |ids|
  {
    if ids != [] {
      var n := |ids| - 1;
      var before := RepriceAll(w, l, patience, passes, ids[..n], v);
      RepriceAllSound(w, l, patience, passes, ids[..n], v);
      InvAfter(w, l, before.0, false);
      RepriceAllOwnChains(w, l, patience, passes, ids[..n], v, ids[n]);
      RepriceSound(ApplyAll(w, before.0), l, patience, before.1, w.rows[ids[n]], v(ids[n]));
      SoundConcat(w, l, before.0, RepriceOutcome(l, patience, before.1, w.rows[ids[n]], v(ids[n])).effects, false);
    }
  }

  /** One pass visits exactly the engine's live unfilled orders of the market in windows that have a band; they are in different chains, so visiting one cannot make another's copy stale. */
  lemma OpenOrdersAreApart(w: World, l: Limits, slug: string, engine: string, ids: seq<OrderId>)
    requires Inv(w, l) && Enumerates(ids, OpenIds(w, l, slug, engine))
    ensures AllOpen(w, ids)
    ensures forall id :: id in ids <==>
              && id in w.rows && id.chain.slug == slug && id.chain.engine == engine && id.chain.offset in l.bands
              && IsLive(w.rows[id].state) && w.rows[id].filled < w.rows[id].size
  {
    forall j, k | 0 <= j < k < |ids|
      ensures ids[j].chain != ids[k].chain
    {
      assert ids[j] in OpenIds(w, l, slug, engine) && ids[k] in OpenIds(w, l, slug, engine);
      if ids[j].chain == ids[k].chain {
        OneLivePerChain(w, l, ids[j], ids[k]);
      }
    }
  }

  /** A move whose cancel is acknowledged, in its two parts. */
  lemma AcknowledgedMove(passes: map<ChainKey, nat>, row: Row, price: real, v: Venue, o: Outcome, next: Row)
    requires v.cancel.Acknowledged? && o == Move(passes, row, price, v) && next == Successor(row, price)
    ensures var gone := [Cancel(row.id, v.cancel), SaveRow(Cancelling(row))];
            o == if row.Remaining() <= 0.0 then Outcome(gone, passes, Cancelling(row))
                 else Outcome(gone + ReplaceEffects(next, v.place), if v.place.Accepted? then passes[row.id.chain := 0] else passes,
                              Settled(next, v.place))
  {
  }

  // ── the imperative form ───────────────────────────────────────────────────

  class Repricer {
    const backend: Backend
    const limits: Limits
    const patience: nat
    var passes: map<ChainKey, nat>

    constructor (backend: Backend, limits: Limits, patience: nat)
      ensures this.backend == backend && this.limits == limits && this.patience == patience && passes == map[]
    {
      this.backend, this.limits, this.patience, passes := backend, limits, patience, map[];
    }

    /** The successor's identity, derived from the texts of the order's own ids. */
    method NextId(id: OrderId) returns (next: OrderId)
      ensures next == id.Next()
    {
      SuccessorIdIsNext(id);
      next := SuccessorId(id).value;
    }

    /** `order` is a row just read. Returns the order to keep treating as live. */
    method MaybeReprice(order: Order, v: Venue) returns (live: Order)
      requires Keyed(backend.rows) && order.id in backend.rows && backend.rows[order.id] == order.AsRow()
      modifies this, backend, order
      ensures var o := RepriceOutcome(limits, patience, old(passes), old(order.AsRow()), v);
              backend.Did(o.effects) && passes == o.passes && live.AsRow() == o.row
      ensures !Moves(limits, patience, old(passes), old(order.AsRow()), v) ==> backend.Did([]) && live == order && order.AsRow() == old(order.AsRow())
      ensures Keyed(backend.rows) && (live == order || fresh(live))
    {
      MovesExactlyWhen(limits, patience, passes, order.AsRow(), v);
      var chain := order.id.chain;
      if order.state != Submitted && order.state != Partial {
        passes := passes - {chain};
        return order;
      }
      var nextId := NextId(order.id);
      if nextId.generation > MAX_PRICE_RETRIES {
        passes := passes - {chain};
        return order;
      }
      var count := (if chain in passes then passes[chain] else 0) + 1;
      passes := passes[chain := count];
      if count <= patience { return order; }
      var target := Target(limits, chain.offset, order.price, v.best, order.direction);
      if target.None? { return order; }
      live := MoveTo(order, nextId, target.value, v);
    }

    method MoveTo(order: Order, nextId: OrderId, price: real, v: Venue) returns (live: Order)
      requires Keyed(backend.rows) && order.id in backend.rows && backend.rows[order.id] == order.AsRow()
      requires Resting(order.AsRow()) && nextId == order.id.Next()
      modifies this, backend, order
      ensures var o := Move(old(passes), old(order.AsRow()), price, v);
              backend.Did(o.effects) && passes == o.passes && live.AsRow() == o.row
      ensures Keyed(backend.rows) && (live == order || fresh(live))
    {
      if v.cancel.NotAcknowledged? {
        Unanswered(order, v.cancel);
        return order;
      }
      AcknowledgedMove(passes, order.AsRow(), price, v, Move(passes, order.AsRow(), price, v), Successor(order.AsRow(), price));
      live := Relocate(order, nextId, price, v);
    }

    /** The venue did not confirm the cancel: the order may be anywhere, or still there. */
    method Unanswered(order: Order, reply: CancelAnswer)
      requires Resting(order.AsRow()) && reply.NotAcknowledged?
      modifies backend, order
      ensures Keyed(old(backend.rows)) ==> Keyed(backend.rows)
      ensures if Classify(reply.why).OutcomeUnknown? then
                var unknown := Moved(old(order.AsRow()), Indeterminate, reply.why.text);
                backend.Did([Cancel(order.id, reply), SaveRow(unknown)]) && order.AsRow() == unknown
              else backend.Did([Cancel(order.id, reply)]) && order.AsRow() == old(order.AsRow())
    {
      ghost var log, w := backend.journal, backend.State();
      backend.Cancel(order.id, reply);
      if Classify(reply.why).OutcomeUnknown? {
        var raised := order.Transition(Indeterminate, reply.why.text);
        assert !raised;
        backend.SaveOrder(order.AsRow());
        Two(log, w, Cancel(order.id, reply), SaveRow(order.AsRow()));
      } else {
        ApplyAllOne(w, Cancel(order.id, reply));
      }
    }

    /** Cancelled for sure: record it, and place what is left one tick on. */
    method Relocate(order: Order, nextId: OrderId, price: real, v: Venue) returns (live: Order)
      requires Keyed(backend.rows) && order.id in backend.rows && backend.rows[order.id] == order.AsRow()
      requires Resting(order.AsRow()) && nextId == order.id.Next() && v.cancel.Acknowledged?
      modifies this, backend, order
      ensures var row, next := old(order.AsRow()), Successor(old(order.AsRow()), price);
              var gone := [Cancel(row.id, v.cancel), SaveRow(Cancelling(row))];
              if row.Remaining() <= 0.0 then backend.Did(gone) && passes == old(passes) && live.AsRow() == Cancelling(row)
              else
                && backend.Did(gone + ReplaceEffects(next, v.place)) && live.AsRow() == Settled(next, v.place)
                && passes == if v.place.Accepted? then old(passes)[row.id.chain := 0] else old(passes)
      ensures Keyed(backend.rows) && (live == order || fresh(live))
    {
      ghost var log, w, row := backend.journal, backend.State(), order.AsRow();
      ghost var ask, next := Cancel(row.id, v.cancel), Successor(row, price);
      backend.Cancel(order.id, v.cancel);
      var raised := order.Transition(Cancelled, "reprice");
      assert !raised;
      backend.SaveOrder(order.AsRow());
      Two(log, w, ask, SaveRow(order.AsRow()));
      var remainder := order.AsRow().Remaining();
      if remainder <= 0.0 { return order; }
      live := Replace(NewRow(nextId, order.direction, price, remainder), v.place);
      Then(log, w, [ask, SaveRow(order.AsRow())], ReplaceEffects(next, v.place));
      if v.place.Accepted? { passes := passes[order.id.chain := 0]; }
    }

    method Replace(row: Row, answer: PlaceAnswer) returns (successor: Order)
      requires row.state.Pending? && Keyed(backend.rows)
      modifies backend
      ensures backend.Did(ReplaceEffects(row, answer))
      ensures fresh(successor) && successor.AsRow() == Settled(row, answer) && Keyed(backend.rows)
    {
      ghost var log, w := backend.journal, backend.State();
      successor := new Order(row);
      backend.SaveOrder(successor.AsRow());
      backend.Place(successor.id, answer);
      SetAnswer(successor, answer);
      backend.SaveOrder(successor.AsRow());
      Three(log, w, SaveRow(row), Place(row.id, answer), SaveRow(Settled(row, answer)));
    }

    method SetAnswer(successor: Order, answer: PlaceAnswer)
      requires successor.state.Pending?
      modifies successor
      ensures successor.AsRow() == Settled(old(successor.AsRow()), answer)
    {
      var raised: bool;
      if answer.Accepted? {
        successor.SetVenueId(answer.venueId);
        raised := successor.Transition(Submitted, "");
      } else {
        raised := successor.Transition(if Classify(answer.why).OutcomeUnknown? then Indeterminate else Rejected, RejectionReason(answer.why));
      }
      assert !raised;
    }

    /** The rows a pass visits, each once. */
    method Unfilled(slug: string, engine: string) returns (ids: seq<OrderId>)
      ensures Enumerates(ids, OpenIds(backend.State(), limits, slug, engine))
    {
      var listed := backend.List(slug, true);
      ids := [];
      for k := 0 to |listed|
        invariant forall i, j | 0 <= i < j < |ids| :: ids[i] != ids[j]
        invariant forall id :: id in ids <==> id in listed[..k] && id in OpenIds(backend.State(), limits, slug, engine)
      {
        var id := listed[k];
        assert listed[..k + 1] == listed[..k] + [id];
        assert id !in listed[..k] && id in listed;
        if backend.rows[id].Remaining() > 0.0 && id.chain.engine == engine && id.chain.offset in limits.bands {
          ids := ids + [id];
        }
      }
      assert listed[..|listed|] == listed;
    }

    /** One pass: every unfilled order of the market, from the rows as read when the pass began. */
    method RepriceOpen(slug: string, engine: string, v: OrderId -> Venue) returns (ids: seq<OrderId>)
      requires Inv(backend.State(), limits)
      modifies this, backend
      ensures Enumerates(ids, OpenIds(old(backend.State()), limits, slug, engine))
      ensures var all := RepriceAll(old(backend.State()), limits, patience, old(passes), ids, v);
              backend.Did(all.0) && passes == all.1
    {
      ghost var log, w, start := backend.journal, backend.State(), passes;
      ids := Unfilled(slug, engine);
      OpenOrdersAreApart(w, limits, slug, engine, ids);
      var read := backend.rows;
      assert ids[..0] == [];
      for k := 0 to |ids|
        invariant Keyed(backend.rows)
        invariant backend.Since(log, w, RepriceAll(w, limits, patience, start, ids[..k], v).0)
        invariant passes == RepriceAll(w, limits, patience, start, ids[..k], v).1
      {
        ghost var before := RepriceAll(w, limits, patience, start, ids[..k], v);
        assert ids[..k + 1][..k] == ids[..k];
        RepriceAllOwnChains(w, limits, patience, start, ids[..k], v, ids[k]);
        var order := new Order(read[ids[k]]);
        var _ := MaybeReprice(order, v(ids[k]));
        Then(log, w, before.0, RepriceOutcome(limits, patience, before.1, w.rows[ids[k]], v(ids[k])).effects);
      }
      assert ids[..|ids|] == ids;
    }
  }
}
