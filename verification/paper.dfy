/** The paper venue: orders rest until an observed trade crosses them. */
module Paper {
  import opened Ids
  import opened Text
  import Orders
  import opened Backend
  import opened Wrappers

  datatype Resting = Resting(venueId: string, price: real, size: real, filled: real) {
    function Open(): real {
      size - filled
    }
  }

  /** What the venue holds, in memory only. */
  datatype Paper = Paper(
    resting: map<OrderId, Resting>,
    directions: map<OrderId, Orders.Direction>,
    fills: map<string, seq<Fill>>,
    sequence: nat)
  {
    ghost predicate Valid() {
      && directions.Keys == resting.Keys
      && (forall id | id in resting :: 0.0 <= resting[id].filled <= resting[id].size)
    }
  }

  function History(p: Paper, market: string): seq<Fill> {
    if market in p.fills then p.fills[market] else []
  }

  /** A client id that rests is refused; any other is taken on. */
  function PlaceAnswerOf(p: Paper, id: OrderId): PlaceAnswer {
    if id in p.resting then Failed(OtherArcError("duplicate client order id " + OrderText(id)), false)
    else Accepted("paper-" + NatText(p.sequence))
  }

  function Placed(p: Paper, row: Orders.Row): Paper {
    if row.id in p.resting then p
    else p.(resting := p.resting[row.id := Resting("paper-" + NatText(p.sequence), row.price, row.size, row.filled)],
            directions := p.directions[row.id := row.direction],
            sequence := p.sequence + 1)
  }

  function CancelAnswerOf(p: Paper, id: OrderId): CancelAnswer {
    if id in p.resting then Acknowledged else NotAcknowledged(OtherArcError("no resting order " + OrderText(id)))
  }

  function Withdrawn(p: Paper, id: OrderId): Paper {
    if id in p.resting then p.(resting := p.resting - {id}, directions := p.directions - {id}) else p
  }

  /**
   A resting id is refused and changes nothing; any other is taken on under the next venue number, with the
   row's side, price, size and filled size. A cancel is acknowledged exactly when the order rests, and then
   takes it off the book. Neither touches another order or the history.
   */
  lemma TakesOnAndWithdraws(p: Paper, row: Orders.Row, other: OrderId)
    ensures PlaceAnswerOf(p, row.id).Accepted? <==> row.id !in p.resting
    ensures !Reached(PlaceAnswerOf(p, row.id)) ==> Placed(p, row) == p
    ensures Reached(PlaceAnswerOf(p, row.id)) ==>
              var q := Placed(p, row);
              && PlaceAnswerOf(p, row.id).venueId == "paper-" + NatText(p.sequence) && q.sequence == p.sequence + 1
              && row.id in q.resting && q.resting[row.id] == Resting("paper-" + NatText(p.sequence), row.price, row.size, row.filled)
              && row.id in q.directions && q.directions[row.id] == row.direction
    ensures CancelAnswerOf(p, row.id).Acknowledged? <==> row.id in p.resting
    ensures row.id !in Withdrawn(p, row.id).resting && (row.id !in p.resting ==> Withdrawn(p, row.id) == p)
    ensures Placed(p, row).fills == Withdrawn(p, row.id).fills == p.fills
    ensures other != row.id ==>
              && (other in Placed(p, row).resting <==> other in p.resting) && (other in Withdrawn(p, row.id).resting <==> other in p.resting)
              && (other in p.resting ==> Placed(p, row).resting[other] == Withdrawn(p, row.id).resting[other] == p.resting[other])
  {
  }

  // ── one observed trade ────────────────────────────────────────────────────

  datatype Cross = Cross(market: string, price: real, side: Option<Orders.Direction>)

  /** The trade is on this order's book and at or below its limit. */
  predicate Crosses(p: Paper, x: Cross, id: OrderId)
    requires id in p.resting
  {
    && (x.side.Some? ==> id in p.directions && p.directions[id] == x.side.value)
    && MatchesMarket(OrderText(id), x.market)
    && x.price <= p.resting[id].price
  }

  /** The matching loop's state: the venue, what is left of the trade, the fills so far. */
  datatype Tape = Tape(venue: Paper, remaining: real, produced: seq<Fill>)

  function FillFor(x: Cross, id: OrderId, r: Resting, traded: real): Fill {
    Fill(PaperFill(id, r.filled + traded), id, x.market, traded, r.price, MatchedEngine(OrderText(id), x.market))
  }

  /** The venue after `traded` of the order has filled. */
  function Executed(p: Paper, x: Cross, id: OrderId, traded: real): Paper
    requires id in p.resting
  {
    var r := p.resting[id];
    var filled := r.filled + traded;
    var after := p.(fills := p.fills[x.market := History(p, x.market) + [FillFor(x, id, r, traded)]]);
    if filled >= r.size then after.(resting := p.resting - {id}, directions := p.directions - {id})
    else after.(resting := p.resting[id := r.(filled := filled)])
  }

  predicate Trades(t: Tape, x: Cross, id: OrderId) {
    t.remaining > 0.0 && id in t.venue.resting && Crosses(t.venue, x, id) && t.venue.resting[id].Open() > 0.0
  }

  function Traded(t: Tape, id: OrderId): real
    requires id in t.venue.resting
  {
    if t.venue.resting[id].Open() <= t.remaining then t.venue.resting[id].Open() else t.remaining
  }

  function TradeOne(t: Tape, x: Cross, id: OrderId): Tape {
    if !Trades(t, x, id) then t
    else
      var traded := Traded(t, id);
      Tape(Executed(t.venue, x, id, traded), t.remaining - traded, t.produced + [FillFor(x, id, t.venue.resting[id], traded)])
  }

  function TradeAll(t: Tape, x: Cross, ids: seq<OrderId>): Tape
    decreases |ids|
  {
    if ids == [] then t else TradeOne(TradeAll(t, x, ids[..|ids| - 1]), x, ids[|ids| - 1])
  }

  // ── what one trade does ───────────────────────────────────────────────────

  lemma TradeOneValid(t: Tape, x: Cross, id: OrderId)
    requires t.venue.Valid()
    ensures TradeOne(t, x, id).venue.Valid()
    ensures forall other | other != id && other in t.venue.resting ::
              other in TradeOne(t, x, id).venue.resting && TradeOne(t, x, id).venue.resting[other] == t.venue.resting[other]
              && TradeOne(t, x, id).venue.directions[other] == t.venue.directions[other]
    ensures TradeOne(t, x, id).venue.resting.Keys <= t.venue.resting.Keys
  {
  }

  function Volume(fs: seq<Fill>): real {
    if fs == [] then 0.0 else Volume(fs[..|fs| - 1]) + fs[|fs| - 1].size
  }

  function OpenOf(p: Paper, id: OrderId): real {
    if id in p.resting then p.resting[id].Open() else 0.0
  }

  function OpenTotal(p: Paper, ids: seq<OrderId>): real {
    if ids == [] then 0.0 else OpenTotal(p, ids[..|ids| - 1]) + OpenOf(p, ids[|ids| - 1])
  }

  lemma {:induction false} OpenTotalSame(p: Paper, q: Paper, ids: seq<OrderId>)
    requires forall id | id in ids :: OpenOf(p, id) == OpenOf(q, id)
    ensures OpenTotal(p, ids) == OpenTotal(q, ids)
  {
    if ids != [] {
      OpenTotalSame(p, q, ids[..|ids| - 1]);
    }
  }

  lemma TradeOneConserves(t: Tape, x: Cross, id: OrderId)
    requires t.venue.Valid()
    ensures var t' := TradeOne(t, x, id);
            && t.remaining - t'.remaining == Volume(t'.produced) - Volume(t.produced) == OpenOf(t.venue, id) - OpenOf(t'.venue, id)
            && (t.remaining >= 0.0 ==> t'.remaining >= 0.0) && t'.remaining <= t.remaining
  {
    var t' := TradeOne(t, x, id);
    if Trades(t, x, id) {
      assert t'.produced[..|t'.produced| - 1] == t.produced;
    }
  }

  /** Orders not named are not touched. */
  lemma {:induction false} TradeAllSpares(t: Tape, x: Cross, ids: seq<OrderId>, other: OrderId)
    requires t.venue.Valid() && other !in ids
    ensures var t' := TradeAll(t, x, ids);
            && t'.venue.Valid() && t'.venue.resting.Keys <= t.venue.resting.Keys
            && (other in t'.venue.resting <==> other in t.venue.resting)
            && (other in t.venue.resting ==> t'.venue.resting[other] == t.venue.resting[other] && t'.venue.directions[other] == t.venue.directions[other])
    decreases |ids|
  {
    if ids != [] {
      TradeAllSpares(t, x, ids[..|ids| - 1], other);
      TradeOneValid(TradeAll(t, x, ids[..|ids| - 1]), x, ids[|ids| - 1]);
    }
  }

  /**
   Quantity is conserved: what left the trade is the volume of the fills and the drop in resting
   quantity, and no more than the trade's size.
   */
  lemma {:induction false} TradeConserves(t: Tape, x: Cross, ids: seq<OrderId>)
    requires t.venue.Valid() && NoRepeats(ids) && t.produced == []
    ensures var t' := TradeAll(t, x, ids);
            && t'.venue.Valid()
            && Volume(t'.produced) == t.remaining - t'.remaining == OpenTotal(t.venue, ids) - OpenTotal(t'.venue, ids)
            && (t.remaining >= 0.0 ==> 0.0 <= t'.remaining <= t.remaining)
            && (t.remaining <= 0.0 ==> t' == t)
    decreases |ids|
  {
    if ids != [] {
      var n := |ids| - 1;
      var before := TradeAll(t, x, ids[..n]);
      TradeConserves(t, x, ids[..n]);
      TradeOneValid(before, x, ids[n]);
      TradeOneConserves(before, x, ids[n]);
      OpenTotalSame(before.venue, TradeAll(t, x, ids).venue, ids[..n]);
      TradeAllSpares(t, x, ids[..n], ids[n]);
    }
  }

  /** The order rests on the traded market's book, on the traded side where that is known, at or above the trade's price. */
  predicate Meets(p: Paper, x: Cross, id: OrderId) {
    && id in p.resting && p.resting[id].price >= x.price
    && MatchesMarket(OrderText(id), x.market)
    && (x.side.None? || (id in p.directions && x.side == Some(p.directions[id])))
  }

  /** The order was resting on the traded book, at or above the trade's price, with quantity open. */
  predicate WasCrossed(p: Paper, x: Cross, f: Fill) {
    && Meets(p, x, f.order)
    && f.price == p.resting[f.order].price
    && f.market == x.market
    && f.engine == MatchedEngine(OrderText(f.order), x.market)
    && 0.0 < f.size <= p.resting[f.order].Open()
    && f.id == PaperFill(f.order, p.resting[f.order].filled + f.size)
  }

  /** The tape's fills come from crossed orders among `ids`, one each. */
  ghost predicate FairFills(p: Paper, x: Cross, fs: seq<Fill>, ids: seq<OrderId>) {
    && (forall i | 0 <= i < |fs| :: fs[i].order in ids && WasCrossed(p, x, fs[i]))
    && (forall i, j | 0 <= i < j < |fs| :: fs[i].order != fs[j].order)
  }

  /** What the fills took is what the book lost: an order leaves exactly when its fill took all it had. */
  ghost predicate Booked(p: Paper, p': Paper, fs: seq<Fill>) {
    && (forall i | 0 <= i < |fs| ::
          var id := fs[i].order;
          && id in p.resting
          && (id !in p'.resting <==> fs[i].size == p.resting[id].Open())
          && (id in p'.resting ==> p'.resting[id] == p.resting[id].(filled := p.resting[id].filled + fs[i].size)))
    && (forall id | id in p.resting && (forall i | 0 <= i < |fs| :: fs[i].order != id) ::
          id in p'.resting && p'.resting[id] == p.resting[id])
  }

  lemma FairStep(p: Paper, t: Tape, x: Cross, ids: seq<OrderId>, id: OrderId)
    requires FairFills(p, x, t.produced, ids) && id !in ids && t.venue.Valid()
    requires id in t.venue.resting <==> id in p.resting
    requires id in p.resting ==> t.venue.resting[id] == p.resting[id] && id in p.directions && t.venue.directions[id] == p.directions[id]
    ensures FairFills(p, x, TradeOne(t, x, id).produced, ids + [id])
  {
    assert forall i | 0 <= i < |t.produced| :: t.produced[i].order in ids + [id];
    assert id in ids + [id];
  }

  /** The book keeps its account when one more order, untouched so far, trades. */
  lemma BookedMore(p: Paper, before: Paper, after: Paper, fs: seq<Fill>, f: Fill)
    requires Booked(p, before, fs) && (forall i | 0 <= i < |fs| :: fs[i].order != f.order) && f.order in p.resting
    requires forall k | k != f.order && k in p.resting ::
               (k in after.resting <==> k in before.resting) && (k in before.resting ==> after.resting[k] == before.resting[k])
    requires f.order !in after.resting <==> f.size == p.resting[f.order].Open()
    requires f.order in after.resting ==> after.resting[f.order] == p.resting[f.order].(filled := p.resting[f.order].filled + f.size)
    ensures Booked(p, after, fs + [f])
  {
    var gs := fs + [f];
    forall k | k in p.resting && forall i | 0 <= i < |gs| :: gs[i].order != k
      ensures k in after.resting && after.resting[k] == p.resting[k]
    {
      assert gs[|fs|].order != k;
      assert forall i | 0 <= i < |fs| :: gs[i] == fs[i];
    }
  }

  lemma BookedStep(p: Paper, t: Tape, x: Cross, id: OrderId)
    requires Booked(p, t.venue, t.produced) && t.venue.Valid() && forall i | 0 <= i < |t.produced| :: t.produced[i].order != id
    requires id in t.venue.resting <==> id in p.resting
    requires id in p.resting ==> t.venue.resting[id] == p.resting[id]
    ensures Booked(p, TradeOne(t, x, id).venue, TradeOne(t, x, id).produced)
  {
    if Trades(t, x, id) {
      BookedMore(p, t.venue, TradeOne(t, x, id).venue, t.produced, FillFor(x, id, t.venue.resting[id], Traded(t, id)));
    }
  }

  /**
   Only crossed orders trade, each at its own price and once, for no more than it had open; an order
   leaves the book exactly when its fill took all it had, and otherwise keeps all but that fill.
   */
  lemma {:induction false} OnlyCrossedTrade(t: Tape, x: Cross, ids: seq<OrderId>)
    requires t.venue.Valid() && NoRepeats(ids) && t.produced == []
    ensures FairFills(t.venue, x, TradeAll(t, x, ids).produced, ids)
    ensures Booked(t.venue, TradeAll(t, x, ids).venue, TradeAll(t, x, ids).produced)
    decreases |ids|
  {
    if ids != [] {
      var n := |ids| - 1;
      OnlyCrossedTrade(t, x, ids[..n]);
      TradeAllSpares(t, x, ids[..n], ids[n]);
      FairStep(t.venue, TradeAll(t, x, ids[..n]), x, ids[..n], ids[n]);
      BookedStep(t.venue, TradeAll(t, x, ids[..n]), x, ids[n]);
      assert ids[..n] + [ids[n]] == ids;
    }
  }

  /**
   A trade touches its own market only, on its own side, and names the engine that placed the order:
   the text tests it uses select exactly those, when names hold no colon and the market is no number.
   */
  lemma {:induction false} TradeStaysInMarket(t: Tape, x: Cross, ids: seq<OrderId>, i: nat)
    requires t.venue.Valid() && NoRepeats(ids) && t.produced == [] && i < |TradeAll(t, x, ids).produced|
    requires forall id | id in t.venue.resting :: Plain(id.chain) && Distinctive(x.market, id.chain.engine)
    ensures var f := TradeAll(t, x, ids).produced[i];
            && f.order.chain.slug == x.market == f.market
            && f.engine == f.order.chain.engine
            && f.order in t.venue.directions && (x.side.Some? ==> t.venue.directions[f.order] == x.side.value)
  {
    OnlyCrossedTrade(t, x, ids);
    MatchIsMarket(TradeAll(t, x, ids).produced[i].order, x.market);
  }

  /** Nothing of the order is left for this trade. */
  predicate Served(p: Paper, x: Cross, id: OrderId) {
    Meets(p, x, id) ==> p.resting[id].filled >= p.resting[id].size
  }

  /** The trade stops only when it is used up or every order it crosses is. */
  lemma {:induction false} StopsWhenExhausted(t: Tape, x: Cross, ids: seq<OrderId>, i: nat)
    requires t.venue.Valid() && NoRepeats(ids) && i < |ids|
    ensures TradeAll(t, x, ids).remaining > 0.0 ==> Served(TradeAll(t, x, ids).venue, x, ids[i])
    decreases |ids|
  {
    if i < |ids| - 1 && TradeAll(t, x, ids).remaining > 0.0 {
      StopsWhenExhausted(t, x, ids[..|ids| - 1], i);
    }
  }

  /** The last order trades only when every crossed order before it has been served. */
  lemma LastTradesLast(t: Tape, x: Cross, ids: seq<OrderId>, i: nat)
    requires t.venue.Valid() && NoRepeats(ids) && i < |ids| - 1
    requires Trades(TradeAll(t, x, ids[..|ids| - 1]), x, ids[|ids| - 1])
    ensures Served(TradeAll(t, x, ids[..|ids| - 1]).venue, x, ids[i])
  {
    StopsWhenExhausted(t, x, ids[..|ids| - 1], i);
  }

  lemma EarlierFillAmongEarlier(t: Tape, x: Cross, ids: seq<OrderId>, j: nat, k: nat)
    requires t.venue.Valid() && NoRepeats(ids) && t.produced == [] && j < |ids|
    requires k < |TradeAll(t, x, ids[..|ids| - 1]).produced| && TradeAll(t, x, ids[..|ids| - 1]).produced[k].order == ids[j]
    ensures j < |ids| - 1
  {
    var before := TradeAll(t, x, ids[..|ids| - 1]);
    OnlyCrossedTrade(t, x, ids[..|ids| - 1]);
    assert before.produced[k].order in ids[..|ids| - 1];
  }

  /** Priority: an order trades only after every crossed order listed before it has been served. */
  lemma {:induction false} EarlierServedFirst(t: Tape, x: Cross, ids: seq<OrderId>, i: nat, j: nat, k: nat)
    requires t.venue.Valid() && NoRepeats(ids) && t.produced == [] && i < j < |ids|
    requires k < |TradeAll(t, x, ids).produced| && TradeAll(t, x, ids).produced[k].order == ids[j]
    ensures Served(TradeAll(t, x, ids).venue, x, ids[i])
    decreases |ids|
  {
    var n := |ids| - 1;
    if k < |TradeAll(t, x, ids[..n]).produced| {
      EarlierFillAmongEarlier(t, x, ids, j, k);
      EarlierServedFirst(t, x, ids[..n], i, j, k);
    } else {
      LastTradesLast(t, x, ids, i);
    }
  }

  lemma {:induction false} UsedUp(t: Tape, x: Cross, ids: seq<OrderId>, n: nat)
    requires n <= |ids| && TradeAll(t, x, ids[..n]).remaining <= 0.0
    ensures TradeAll(t, x, ids) == TradeAll(t, x, ids[..n])
    decreases |ids|
  {
    if n == |ids| {
      assert ids[..n] == ids;
    } else {
      assert ids[..|ids| - 1][..n] == ids[..n];
      UsedUp(t, x, ids[..|ids| - 1], n);
    }
  }

  // ── matching order ────────────────────────────────────────────────────────

  ghost predicate ByText(ids: seq<OrderId>) {
    forall i, j | 0 <= i < j < |ids| :: LexLeq(OrderText(ids[i]), OrderText(ids[j]))
  }

  function Insert(ids: seq<OrderId>, id: OrderId): seq<OrderId> {
    if ids == [] || LexLeq(OrderText(id), OrderText(ids[0])) then [id] + ids else [ids[0]] + Insert(ids[1..], id)
  }

  lemma {:induction false} InsertMembers(ids: seq<OrderId>, id: OrderId, k: OrderId)
    ensures k in Insert(ids, id) <==> k == id || k in ids
    decreases |ids|
  {
    if ids != [] && !LexLeq(OrderText(id), OrderText(ids[0])) {
      InsertMembers(ids[1..], id, k);
      assert k in ids <==> k == ids[0] || k in ids[1..];
    }
  }

  lemma {:induction false} InsertKeepsOrder(ids: seq<OrderId>, id: OrderId)
    requires ByText(ids) && NoRepeats(ids) && id !in ids
    ensures ByText(Insert(ids, id)) && NoRepeats(Insert(ids, id))
    decreases |ids|
  {
    if ids != [] {
      if LexLeq(OrderText(id), OrderText(ids[0])) {
        forall j | 0 < j < |ids|
          ensures LexLeq(OrderText(id), OrderText(ids[j]))
        {
          LexTransitive(OrderText(id), OrderText(ids[0]), OrderText(ids[j]));
        }
      } else {
        LexTotal(OrderText(id), OrderText(ids[0]));
        InsertKeepsOrder(ids[1..], id);
        var rest := Insert(ids[1..], id);
        forall j | 0 <= j < |rest|
          ensures LexLeq(OrderText(ids[0]), OrderText(rest[j])) && rest[j] != ids[0]
        {
          InsertMembers(ids[1..], id, rest[j]);
          if rest[j] != id {
            var k :| 0 <= k < |ids[1..]| && ids[1..][k] == rest[j];
            assert ids[k + 1] == rest[j];
          }
        }
        FirstThenRest(ids[0], rest);
      }
    }
  }

  lemma FirstThenRest(first: OrderId, rest: seq<OrderId>)
    requires ByText(rest) && NoRepeats(rest)
    requires forall j | 0 <= j < |rest| :: LexLeq(OrderText(first), OrderText(rest[j])) && rest[j] != first
    ensures ByText([first] + rest) && NoRepeats([first] + rest)
  {
  }

  // ── the imperative form ───────────────────────────────────────────────────

  class PaperExecutor {
    var resting: map<OrderId, Resting>
    var directions: map<OrderId, Orders.Direction>
    var fills: map<string, seq<Fill>>
    var sequence: nat

    function State(): Paper
      reads this
    {
      Paper(resting, directions, fills, sequence)
    }

    constructor ()
      ensures State() == Paper(map[], map[], map[], 1)
    {
      resting, directions, fills, sequence := map[], map[], map[], 1;
    }

    method Place(row: Orders.Row) returns (answer: PlaceAnswer)
      modifies this
      ensures answer == PlaceAnswerOf(old(State()), row.id)
      ensures State() == Placed(old(State()), row)
    {
      if row.id in resting {
        return Failed(OtherArcError("duplicate client order id " + OrderText(row.id)), false);
      }
      var venueId := "paper-" + NatText(sequence);
      sequence := sequence + 1;
      resting := resting[row.id := Resting(venueId, row.price, row.size, row.filled)];
      directions := directions[row.id := row.direction];
      return Accepted(venueId);
    }

    method Cancel(id: OrderId) returns (answer: CancelAnswer)
      modifies this
      ensures answer == CancelAnswerOf(old(State()), id)
      ensures State() == Withdrawn(old(State()), id)
    {
      if id !in resting { return NotAcknowledged(OtherArcError("no resting order " + OrderText(id))); }
      resting := resting - {id};
      directions := directions - {id};
      return Acknowledged;
    }

    method Fills(market: string) returns (reported: seq<Fill>)
      ensures reported == History(State(), market)
    {
      reported := if market in fills then fills[market] else [];
    }

    method SortedIds() returns (ids: seq<OrderId>)
      ensures ByText(ids) && NoRepeats(ids) && forall id :: id in ids <==> id in resting
    {
      ids := [];
      var todo := resting.Keys;
      while todo != {}
        invariant ByText(ids) && NoRepeats(ids) && todo <= resting.Keys
        invariant forall id :: id in ids <==> id in resting && id !in todo
        decreases todo
      {
        var id :| id in todo;
        InsertKeepsOrder(ids, id);
        forall k
          ensures k in Insert(ids, id) <==> k == id || k in ids
        {
          InsertMembers(ids, id, k);
        }
        ids := Insert(ids, id);
        todo := todo - {id};
      }
    }

    /** One order of the matching loop. */
    method Match(x: Cross, id: OrderId, available: real) returns (left: real, fill: Option<Fill>)
      requires State().Valid() && id in resting
      modifies this
      ensures var t := TradeOne(Tape(old(State()), available, []), x, id);
              && State() == t.venue && left == t.remaining
              && t.produced == match fill { case Some(f) => [f] case None => [] }
    {
      left, fill := available, None;
      if available <= 0.0 { return; }
      var r := resting[id];
      if x.side.Some? && directions[id] != x.side.value { return; }
      var text := OrderText(id);
      if !MatchesMarket(text, x.market) { return; }
      if x.price > r.price { return; }
      if r.size - r.filled <= 0.0 { return; }
      var traded := if r.Open() <= available then r.Open() else available;
      left := available - traded;
      var filled := r.filled + traded;
      var f := Fill(PaperFill(id, filled), id, x.market, traded, r.price, MatchedEngine(text, x.market));
      fill := Some(f);
      fills := fills[x.market := (if x.market in fills then fills[x.market] else []) + [f]];
      if filled >= r.size {
        resting := resting - {id};
        directions := directions - {id};
      } else {
        resting := resting[id := r.(filled := filled)];
      }
    }

    method Trade(x: Cross, size: real) returns (produced: seq<Fill>, ghost ids: seq<OrderId>)
      requires State().Valid()
      modifies this
      ensures ByText(ids) && NoRepeats(ids) && forall id :: id in ids <==> id in old(resting)
      ensures var t := TradeAll(Tape(old(State()), size, []), x, ids); State() == t.venue && produced == t.produced
      ensures State().Valid()
    {
      ghost var start := Tape(State(), size, []);
      var listed := SortedIds();
      ids := listed;
      produced := [];
      var remaining := size;
      assert listed[..0] == [];
      for k := 0 to |listed|
        invariant TradeAll(start, x, listed[..k]) == Tape(State(), remaining, produced)
        invariant State().Valid()
      {
        if remaining <= 0.0 {
          UsedUp(start, x, listed, k);
          return;
        }
        assert listed[..k + 1][..k] == listed[..k];
        assert listed[k] in listed;
        TradeAllSpares(start, x, listed[..k], listed[k]);
        TradeOneTape(State(), remaining, produced, x, listed[k]);
        TradeOneValid(Tape(State(), remaining, produced), x, listed[k]);
        var left, fill := Match(x, listed[k], remaining);
        remaining := left;
        if fill.Some? { produced := produced + [fill.value]; }
      }
      assert listed[..|listed|] == listed;
    }
  }

  /** A step's new fill does not depend on the fills before it. */
  lemma TradeOneTape(p: Paper, remaining: real, produced: seq<Fill>, x: Cross, id: OrderId)
    ensures var one, t := TradeOne(Tape(p, remaining, []), x, id), TradeOne(Tape(p, remaining, produced), x, id);
            t == Tape(one.venue, one.remaining, produced + one.produced)
  {
    assert produced + [] == produced;
  }
}
