/** What every effect keeps: reprice chains, exposure, and the venue's acceptances. */
module Chains {
  import opened Ids
  import opened Orders
  import opened Backend
  import Money

  // An operation is safe at every crash point when each of its effects is `Good` where it happens.

  /** The venue's tick and each window's entry band. */
  datatype Limits = Limits(tick: real, bands: map<nat, (real, real)>)

  const MAX_PRICE_RETRIES: nat := 3

  function StepPrice(price: real, direction: Direction, tick: real): real {
    if direction == Up then price + tick else price - tick
  }

  predicate InBand(l: Limits, offset: nat, price: real) {
    offset in l.bands && l.bands[offset].0 <= price <= l.bands[offset].1
  }

  predicate RowOk(id: OrderId, r: Row) {
    r.id == id && 0.0 <= r.filled <= r.size && id.generation <= MAX_PRICE_RETRIES
  }

  function Previous(id: OrderId): OrderId
    requires id.generation > 0
  {
    OrderId(id.chain, id.generation - 1)
  }

  /** `next` is `last` one tick on, for what `last` left unfilled. */
  predicate Continues(l: Limits, last: Row, next: Row) {
    && next.direction == last.direction
    && next.price == StepPrice(last.price, last.direction, l.tick)
    && next.price > 0.0
    && InBand(l, next.id.chain.offset, next.price)
    && next.size == last.size - last.filled
  }

  predicate Linked(w: World, l: Limits, id: OrderId)
    requires id in w.rows && id.generation > 0
  {
    var p := Previous(id);
    p in w.rows && w.rows[p].state.Cancelled? && p in w.retired && Continues(l, w.rows[p], w.rows[id])
  }

  ghost predicate Inv(w: World, l: Limits) {
    && (forall id | id in w.rows :: RowOk(id, w.rows[id]))
    && (forall id | id in w.rows && id.generation > 0 :: Linked(w, l, id))
    && NoRepeats(w.accepted)
    && (forall id | id in w.accepted :: id in w.rows)
    && (forall id | id in w.retired :: id in w.rows && !w.rows[id].state.Pending?)
  }

  /** How a row may change: along the transition table, or by a fill landing on a live order. */
  predicate Progress(before: Row, after: Row, byFill: bool) {
    && SameTerms(before, after)
    && IsLive(before.state)
    && 0.0 <= after.filled <= after.size
    && (CanMove(before, after.state) || (byFill && (after.state.Partial? || after.state.Filled?)))
  }

  /** An effect that keeps the invariant where it happens. */
  predicate Good(w: World, l: Limits, e: Effect, byFill: bool) {
    match e
    case SaveRow(r) =>
      if r.id in w.rows then Progress(w.rows[r.id], r, byFill)
      else
        && r.state.Pending? && r.filled == 0.0 && r.size >= 0.0
        && r.id.generation <= MAX_PRICE_RETRIES
        && (r.id.generation > 0 ==>
              var p := Previous(r.id);
              p in w.rows && w.rows[p].state.Cancelled? && p in w.retired && Continues(l, w.rows[p], r))
    case Place(id, _) => id in w.rows && id !in w.accepted && w.rows[id].state.Pending?
    case Cancel(id, _) => id in w.rows && IsLive(w.rows[id].state) && !w.rows[id].state.Pending?
    case _ => true
  }

  lemma NewRowKeepsInv(w: World, l: Limits, r: Row, byFill: bool)
    requires Inv(w, l) && Good(w, l, SaveRow(r), byFill) && r.id !in w.rows
    ensures Inv(Apply(w, SaveRow(r)), l)
  {
    var w' := Apply(w, SaveRow(r));
    assert w'.rows == w.rows[r.id := r];
    forall id | id in w'.rows && id.generation > 0
      ensures Linked(w', l, id)
    {
      if id in w.rows { assert Linked(w, l, id); }
    }
  }

  /** A row moves on: its successor's link survives because a cancelled row does not move. */
  lemma MovedRowKeepsInv(w: World, l: Limits, r: Row, byFill: bool)
    requires Inv(w, l) && Good(w, l, SaveRow(r), byFill) && r.id in w.rows
    ensures Inv(Apply(w, SaveRow(r)), l)
  {
    var w' := Apply(w, SaveRow(r));
    assert RowOk(r.id, w.rows[r.id]);
    assert w'.rows == w.rows[r.id := w'.rows[r.id]] && SameTerms(w'.rows[r.id], w.rows[r.id]);
    forall id | id in w'.rows && id.generation > 0
      ensures Linked(w', l, id)
    {
      assert Linked(w, l, id);
    }
  }

  lemma GoodKeepsInv(w: World, l: Limits, e: Effect, byFill: bool)
    requires Inv(w, l) && Good(w, l, e, byFill)
    ensures Inv(Apply(w, e), l)
  {
    if e.SaveRow? {
      if e.row.id in w.rows { MovedRowKeepsInv(w, l, e.row, byFill); } else { NewRowKeepsInv(w, l, e.row, byFill); }
    } else {
      forall id | id in w.rows && id.generation > 0
        ensures Linked(Apply(w, e), l, id)
      {
        assert Linked(w, l, id);
      }
      assert forall i | 0 <= i < |w.accepted| :: w.accepted[i] in w.accepted;
    }
  }

  /** Nothing is forgotten, no term of an order changes, and a terminal row is final. */
  ghost predicate Evolves(w: World, w': World) {
    && (forall id | id in w.rows ::
          && id in w'.rows
          && SameTerms(w.rows[id], w'.rows[id])
          && (IsTerminal(w.rows[id].state) ==> w'.rows[id] == w.rows[id]))
    && (forall id | id in w.fills :: id in w'.fills && w'.fills[id] == w.fills[id])
    && (forall k | k in w.intents :: k in w'.intents && w'.intents[k] == w.intents[k])
    && w.accepted <= w'.accepted
    && w.retired <= w'.retired
  }

  lemma GoodEvolves(w: World, l: Limits, e: Effect, byFill: bool)
    requires Good(w, l, e, byFill)
    ensures Evolves(w, Apply(w, e))
  {
  }

  lemma EvolvesTransitive(a: World, b: World, c: World)
    requires Evolves(a, b) && Evolves(b, c)
    ensures Evolves(a, c)
  {
    forall id | id in a.rows
      ensures id in c.rows && SameTerms(a.rows[id], c.rows[id])
      ensures IsTerminal(a.rows[id].state) ==> c.rows[id] == a.rows[id]
    {
      assert id in b.rows;
    }
  }

  /** Every effect of the list is good in the world its predecessors leave. */
  predicate Sound(w: World, l: Limits, es: seq<Effect>, byFill: bool)
    decreases |es|
  {
    es == [] || (Good(w, l, es[0], byFill) && Sound(Apply(w, es[0]), l, es[1..], byFill))
  }

  lemma {:induction false} SoundConcat(w: World, l: Limits, a: seq<Effect>, b: seq<Effect>, byFill: bool)
    requires Sound(w, l, a, byFill) && Sound(ApplyAll(w, a), l, b, byFill)
    ensures Sound(w, l, a + b, byFill)
    decreases |a|
  {
    if a == [] {
      assert a + b == b;
    } else {
      SoundConcat(Apply(w, a[0]), l, a[1..], b, byFill);
      assert (a + b)[1..] == a[1..] + b;
    }
  }

  lemma SoundTwo(w: World, l: Limits, a: Effect, b: Effect, byFill: bool)
    requires Good(w, l, a, byFill) && Good(Apply(w, a), l, b, byFill)
    ensures Sound(w, l, [a, b], byFill)
  {
    assert [a, b][1..] == [b] && [b][1..] == [];
    assert Sound(Apply(w, a), l, [b], byFill);
  }

  lemma SoundThree(w: World, l: Limits, a: Effect, b: Effect, c: Effect, byFill: bool)
    requires Good(w, l, a, byFill) && Good(Apply(w, a), l, b, byFill) && Good(Apply(Apply(w, a), b), l, c, byFill)
    ensures Sound(w, l, [a, b, c], byFill)
  {
    SoundTwo(Apply(w, a), l, b, c, byFill);
    assert [a, b, c][1..] == [b, c];
  }

  /** No effect of the list writes the row `id`. */
  predicate Spares(es: seq<Effect>, id: OrderId) {
    forall i | 0 <= i < |es| :: es[i].SaveRow? ==> es[i].row.id != id
  }

  lemma {:induction false} SparedRowKept(w: World, es: seq<Effect>, id: OrderId)
    requires Spares(es, id)
    ensures var w' := ApplyAll(w, es); (id in w'.rows <==> id in w.rows) && (id in w.rows ==> w'.rows[id] == w.rows[id])
    decreases |es|
  {
    if es != [] {
      SparedRowKept(Apply(w, es[0]), es[1..], id);
    }
  }

  /** A sound list is safe at every crash point: whatever prefix happened, the invariant holds. */
  lemma {:induction false} SafeAtEveryCrash(w: World, l: Limits, es: seq<Effect>, byFill: bool, n: nat)
    requires Inv(w, l) && Sound(w, l, es, byFill) && n <= |es|
    ensures Inv(ApplyAll(w, es[..n]), l)
    ensures Evolves(w, ApplyAll(w, es[..n]))
    decreases |es|
  {
    if n > 0 {
      GoodKeepsInv(w, l, es[0], byFill);
      GoodEvolves(w, l, es[0], byFill);
      SafeAtEveryCrash(Apply(w, es[0]), l, es[1..], byFill, n - 1);
      assert es[..n][1..] == es[1..][..n - 1];
      EvolvesTransitive(w, Apply(w, es[0]), ApplyAll(w, es[..n]));
    }
  }

  /** After all of a sound list. */
  lemma {:induction false} InvAfter(w: World, l: Limits, es: seq<Effect>, byFill: bool)
    requires Inv(w, l) && Sound(w, l, es, byFill)
    ensures Inv(ApplyAll(w, es), l) && Evolves(w, ApplyAll(w, es))
  {
    SafeAtEveryCrash(w, l, es, byFill, |es|);
    assert es[..|es|] == es;
  }

  // ── what the invariant means ──────────────────────────────────────────────

  /** Everything below an existing generation exists, was cancelled, and left the venue. */
  lemma {:induction false} EarlierGenerations(w: World, l: Limits, id: OrderId, j: nat)
    requires Inv(w, l) && id in w.rows && j < id.generation
    ensures var p := OrderId(id.chain, j); p in w.rows && w.rows[p].state.Cancelled? && p in w.retired
    decreases id.generation
  {
    assert Linked(w, l, id);
    if j < id.generation - 1 {
      EarlierGenerations(w, l, Previous(id), j);
    }
  }

  /** Only a cancelled order has a successor. */
  lemma NoSuccessorBeforeCancel(w: World, l: Limits, id: OrderId)
    requires Inv(w, l) && id in w.rows && !w.rows[id].state.Cancelled?
    ensures id.Next() !in w.rows && id.Next() !in w.accepted
  {
    assert id.Next() in w.rows ==> Linked(w, l, id.Next());
  }

  function FilledBelow(rows: map<OrderId, Row>, chain: ChainKey, k: nat): real {
    if k == 0 then 0.0
    else
      var last := OrderId(chain, k - 1);
      FilledBelow(rows, chain, k - 1) + (if last in rows then rows[last].filled else 0.0)
  }

  /** What a chain has filled plus what its last order asks for is exactly what was approved. */
  lemma {:induction false} ExposureConserved(w: World, l: Limits, id: OrderId)
    requires Inv(w, l) && id in w.rows
    ensures OrderId(id.chain, 0) in w.rows
    ensures FilledBelow(w.rows, id.chain, id.generation) + w.rows[id].size == w.rows[OrderId(id.chain, 0)].size
    decreases id.generation
  {
    if id.generation > 0 {
      assert Linked(w, l, id);
      ExposureConserved(w, l, Previous(id));
    }
  }

  /** At most one order of a chain is live. */
  lemma OneLivePerChain(w: World, l: Limits, a: OrderId, b: OrderId)
    requires Inv(w, l) && a in w.rows && b in w.rows && a.chain == b.chain
    requires IsLive(w.rows[a].state) && IsLive(w.rows[b].state)
    ensures a == b
  {
    if a.generation < b.generation {
      EarlierGenerations(w, l, b, a.generation);
    } else if b.generation < a.generation {
      EarlierGenerations(w, l, a, b.generation);
    }
  }

  /** At most one order of a chain can be working at the venue, whatever answers were lost. */
  lemma OneWorkingPerChain(w: World, l: Limits, a: OrderId, b: OrderId)
    requires Inv(w, l) && a.chain == b.chain
    requires a in w.accepted && b in w.accepted && a !in w.retired && b !in w.retired
    ensures a == b
  {
    if a.generation < b.generation {
      EarlierGenerations(w, l, b, a.generation);
    } else if b.generation < a.generation {
      EarlierGenerations(w, l, a, b.generation);
    }
  }

  /** Generation k rests exactly k ticks from where the chain began, on its side of it. */
  lemma {:induction false} PricePath(w: World, l: Limits, id: OrderId)
    requires Inv(w, l) && id in w.rows
    ensures var first := OrderId(id.chain, 0);
            && first in w.rows
            && w.rows[id].direction == w.rows[first].direction
            && w.rows[id].price == w.rows[first].price
                 + (if w.rows[id].direction == Up then id.generation as real else -(id.generation as real)) * l.tick
    ensures id.generation > 0 ==> InBand(l, id.chain.offset, w.rows[id].price) && w.rows[id].price > 0.0
    ensures id.generation <= MAX_PRICE_RETRIES
    decreases id.generation
  {
    if id.generation > 0 {
      assert Linked(w, l, id);
      PricePath(w, l, Previous(id));
      var k := id.generation;
      assert k as real * l.tick == (k - 1) as real * l.tick + l.tick;
      assert -(k as real) * l.tick == -((k - 1) as real) * l.tick - l.tick;
    }
  }

  /** A chain that starts on the tick grid stays on it. */
  lemma GridPath(w: World, l: Limits, id: OrderId)
    requires Inv(w, l) && id in w.rows
    requires OrderId(id.chain, 0) in w.rows && Money.OnGrid(w.rows[OrderId(id.chain, 0)].price, l.tick)
    ensures Money.OnGrid(w.rows[id].price, l.tick)
  {
    PricePath(w, l, id);
    var m: int :| w.rows[OrderId(id.chain, 0)].price == Money.Steps(m, l.tick);
    var k: int := if w.rows[id].direction == Up then id.generation else 0 - id.generation;
    assert w.rows[id].price == Money.Steps(m, l.tick) + k as real * l.tick;
    Money.StepsAdd(m, k, l.tick);
    assert w.rows[id].price == Money.Steps(m + k, l.tick);
  }
}
