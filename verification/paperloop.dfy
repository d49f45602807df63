/** The paper venue driven by trades, submissions, polls, and cancels after a poll. */
module PaperLoop {
  import opened Ids
  import opened Orders
  import opened Backend
  import opened Chains
  import opened Submit
  import opened Reprice
  import Sweep
  import opened Fills
  import opened Paper

  // Local rows, stored fills and the venue's book never drift apart.

  function Fillset(p: Paper, m: string): set<Fill> {
    set f | f in History(p, m)
  }

  /** What the venue has executed of an order. */
  ghost function VenueFilled(p: Paper, id: OrderId): real {
    Total(Fillset(p, id.chain.slug), id)
  }

  ghost function StoredFilled(w: World, id: OrderId): real {
    Total(w.fills.Values, id)
  }

  /** Matching has executed all of a non-empty order. */
  predicate Complete(filled: real, size: real) {
    filled > 0.0 && filled >= size
  }

  /** Locally, an order's state is what its progress and its cancel say. */
  function ExpectedState(row: Row, retired: bool): OrderState {
    if retired then Cancelled
    else if Complete(row.filled, row.size) then Filled
    else if row.filled > 0.0 then Partial
    else Submitted
  }

  ghost predicate RowAgrees(w: World, p: Paper, id: OrderId)
    requires id in w.rows
  {
    var row := w.rows[id];
    && Plain(id.chain)
    && id in w.accepted
    && row.id == id
    && row.state == ExpectedState(row, id in w.retired)
    && row.filled == StoredFilled(w, id)
    && VenueFilled(p, id) <= row.size
    && (id in w.retired ==> row.filled == VenueFilled(p, id))
  }

  ghost predicate RowsAgree(w: World, p: Paper) {
    && w.retired <= w.rows.Keys
    && (forall id {:trigger RowAgrees(w, p, id)} | id in w.rows :: RowAgrees(w, p, id))
  }

  /** The order rests exactly while it is neither retired nor complete, on its own terms, as far as it has filled. */
  ghost predicate RestsRight(w: World, p: Paper, id: OrderId)
    requires p.Valid()
  {
    && (id in p.resting <==> id in w.rows && id !in w.retired && !Complete(VenueFilled(p, id), w.rows[id].size))
    && (id in p.resting ==>
          var r := p.resting[id];
          r.price == w.rows[id].price && r.size == w.rows[id].size && r.filled == VenueFilled(p, id)
          && p.directions[id] == w.rows[id].direction)
  }

  ghost predicate BookAgrees(w: World, p: Paper) {
    p.Valid() && forall id {:trigger RestsRight(w, p, id)} :: RestsRight(w, p, id)
  }

  /** A fill in a market's history is one of an order of that market, keyed by its cumulative quantity. */
  ghost predicate WellFilled(w: World, p: Paper, m: string, f: Fill) {
    && f.order in w.rows
    && f.order.chain.slug == f.market == m
    && f.engine == f.order.chain.engine
    && f.size > 0.0
    && f.id.PaperFill? && f.id.order == f.order && 0.0 < f.id.cumulative <= VenueFilled(p, f.order)
  }

  ghost predicate HistoryAgrees(w: World, p: Paper) {
    && (forall m, i {:trigger WellFilled(w, p, m, History(p, m)[i])} | 0 <= i < |History(p, m)| :: WellFilled(w, p, m, History(p, m)[i]))
    && (forall m :: OnceEach(History(p, m)))
  }

  ghost predicate OnceEach(fs: seq<Fill>) {
    forall i, j | 0 <= i < j < |fs| :: fs[i].id != fs[j].id
  }

  ghost predicate StoreAgrees(w: World, p: Paper) {
    forall k | k in w.fills :: w.fills[k].id == k && w.fills[k] in History(p, w.fills[k].market)
  }

  ghost predicate Sync(w: World, p: Paper) {
    RowsAgree(w, p) && BookAgrees(w, p) && HistoryAgrees(w, p) && StoreAgrees(w, p)
  }

  /** Every fill the venue reports for the market is stored. */
  predicate Drained(w: World, p: Paper, m: string) {
    forall i | 0 <= i < |History(p, m)| :: History(p, m)[i].id in w.fills
  }

  lemma InHistory(w: World, p: Paper, m: string, f: Fill)
    requires HistoryAgrees(w, p) && f in History(p, m)
    ensures WellFilled(w, p, m, f)
  {
    var i :| 0 <= i < |History(p, m)| && History(p, m)[i] == f;
  }

  lemma StoredIsReported(w: World, p: Paper, m: string, f: Fill)
    requires HistoryAgrees(w, p) && StoreAgrees(w, p) && f in History(p, m) && f.id in w.fills
    ensures w.fills[f.id] == f
  {
    var g := w.fills[f.id];
    InHistory(w, p, m, f);
    InHistory(w, p, g.market, g);
  }

  /** When everything reported is stored, each local filled size is the venue's. */
  lemma DrainedAgrees(w: World, p: Paper, id: OrderId)
    requires Sync(w, p) && Drained(w, p, id.chain.slug) && id in w.rows
    ensures w.rows[id].filled == VenueFilled(p, id)
    ensures id in p.resting <==> IsLive(w.rows[id].state)
  {
    var m := id.chain.slug;
    assert RowAgrees(w, p, id) && RestsRight(w, p, id);
    TotalOf(w.fills.Values, id);
    TotalOf(Fillset(p, m), id);
    forall f
      ensures f in Of(w.fills.Values, id) <==> f in Of(Fillset(p, m), id)
    {
      if f in Of(w.fills.Values, id) {
        var k :| k in w.fills && w.fills[k] == f;
        InHistory(w, p, f.market, f);
      }
      if f in Of(Fillset(p, m), id) {
        StoredIsReported(w, p, m, f);
        assert f.id in w.fills.Keys;
      }
    }
    assert Of(w.fills.Values, id) == Of(Fillset(p, m), id);
  }

  lemma SyncKeyed(w: World, p: Paper)
    requires RowsAgree(w, p)
    ensures Keyed(w.rows)
  {
    forall id | id in w.rows
      ensures w.rows[id].id == id
    {
      assert RowAgrees(w, p, id);
    }
  }

  // ── a poll ────────────────────────────────────────────────────────────────

  /** Stored and newly reported fills together are within what the venue executed. */
  lemma NewsFits(w: World, p: Paper, id: OrderId)
    requires Sync(w, p) && id in w.rows
    ensures var news := News(w, History(p, id.chain.slug));
            && w.fills.Values !! news
            && Total(w.fills.Values + news, id) == w.rows[id].filled + Total(news, id) <= VenueFilled(p, id)
  {
    var m, all := id.chain.slug, w.fills.Values;
    var news := News(w, History(p, m));
    assert RowAgrees(w, p, id);
    forall f | f in all
      ensures f !in news
    {
      var k :| k in w.fills && w.fills[k] == f;
    }
    TotalUnion(all, news, id);
    TotalOf(all + news, id);
    forall f | f in Of(all + news, id)
      ensures f in Fillset(p, m)
    {
      if f in all {
        var k :| k in w.fills && w.fills[k] == f;
        InHistory(w, p, f.market, f);
      }
    }
    FillsetPositive(w, p, m);
    TotalMonotone(Of(all + news, id), Fillset(p, m), id);
  }

  lemma FillsetPositive(w: World, p: Paper, m: string)
    requires HistoryAgrees(w, p)
    ensures forall f | f in Fillset(p, m) :: f.size > 0.0
  {
    forall f | f in Fillset(p, m)
      ensures f.size > 0.0
    {
      InHistory(w, p, m, f);
    }
  }

  lemma NewsIsConsistent(w: World, p: Paper, m: string)
    requires HistoryAgrees(w, p)
    ensures Consistent(News(w, History(p, m)))
  {
    forall f, g | f in News(w, History(p, m)) && g in News(w, History(p, m)) && f.id == g.id
      ensures f == g
    {
    }
  }

  /** No order the venue reports on is terminal locally, and none can overflow. */
  lemma NewsIsRoomy(w: World, p: Paper, m: string)
    requires Sync(w, p)
    ensures Roomy(w, m, News(w, History(p, m)))
  {
    var news := News(w, History(p, m));
    forall f | f in news && IsLinked(w.rows, m, f)
      ensures HasRoom(w.rows[f.order], Total(news, f.order) - f.size)
    {
      NewsFits(w, p, f.order);
      assert RowAgrees(w, p, f.order);
      TotalSplit(news, f, f.order);
      TotalMonotone(news - {f}, news, f.order);
      StoredPositive(w, p, f.order);
    }
  }

  lemma StoredPositive(w: World, p: Paper, id: OrderId)
    requires HistoryAgrees(w, p) && StoreAgrees(w, p)
    ensures Total(w.fills.Values, id) >= 0.0
  {
    forall f | f in w.fills.Values
      ensures f.size > 0.0
    {
      InHistory(w, p, f.market, f);
    }
    TotalMonotone({}, w.fills.Values, id);
  }

  /** What a poll stores. */
  lemma PollStores(w: World, w': World, p: Paper, m: string)
    requires Sync(w, p) && HoldsFills(w, w'.fills, m, News(w, History(p, m)))
    ensures w'.fills.Values == w.fills.Values + News(w, History(p, m))
    ensures StoreAgrees(w', p) && Drained(w', p, m)
  {
    var news := News(w, History(p, m));
    forall f | f in news
      ensures Norm(w.rows, m, f) == f && f in History(p, m) && f.market == m
    {
      InHistory(w, p, m, f);
    }
    forall f
      ensures f in w'.fills.Values <==> f in w.fills.Values + news
    {
      if f in w'.fills.Values {
        var k :| k in w'.fills && w'.fills[k] == f;
        if k !in w.fills {
          var g :| g in news && g.id == k;
        }
      }
      if f in w.fills.Values {
        var k :| k in w.fills && w.fills[k] == f;
        assert k in w'.fills;
      }
      if f in news {
        assert f.id in w'.fills;
      }
    }
    forall k | k in w'.fills
      ensures w'.fills[k].id == k && w'.fills[k] in History(p, w'.fills[k].market)
    {
      if k !in w.fills {
        var g :| g in news && g.id == k;
      }
    }
    forall i | 0 <= i < |History(p, m)|
      ensures History(p, m)[i].id in w'.fills
    {
      InHistory(w, p, m, History(p, m)[i]);
      if History(p, m)[i].id !in w.fills { assert History(p, m)[i] in news; }
    }
  }

  lemma RowTakes(row: Row, t: real, venue: real, retired: bool)
    requires 0.0 <= t && 0.0 <= row.filled && row.filled + t <= venue <= row.size
    requires row.state == ExpectedState(row, retired) && (retired ==> row.filled == venue)
    ensures var r := Topped(row, t);
            && r.filled == row.filled + t && SameTerms(r, row) && r.id == row.id
            && r.state == ExpectedState(r, retired) && (retired ==> r.filled == row.filled)
  {
  }

  lemma RowFacts(w: World, p: Paper, id: OrderId)
    requires Sync(w, p) && id in w.rows
    ensures var row := w.rows[id];
            && 0.0 <= row.filled == Total(w.fills.Values, id) && VenueFilled(p, id) <= row.size
            && row.id == id && row.state == ExpectedState(row, id in w.retired)
            && (id in w.retired ==> row.filled == VenueFilled(p, id))
  {
    assert RowAgrees(w, p, id);
    StoredPositive(w, p, id);
  }

  /** The row a poll leaves carries exactly what its stored fills add up to. */
  lemma PollRow(w: World, w': World, p: Paper, m: string, id: OrderId)
    requires Sync(w, p) && Holds(w, w', m, News(w, History(p, m))) && id in w.rows
    requires w'.fills.Values == w.fills.Values + News(w, History(p, m))
    ensures w'.rows[id].filled == Total(w'.fills.Values, id)
    ensures SameTerms(w'.rows[id], w.rows[id]) && w'.rows[id].state == ExpectedState(w'.rows[id], id in w.retired)
    ensures id in w.retired ==> w'.rows[id].filled == w.rows[id].filled
  {
    var news := News(w, History(p, m));
    RowFacts(w, p, id);
    if id.chain.slug == m {
      NewsFits(w, p, id);
      NewsPositive(w, p, m, id);
      RowTakes(w.rows[id], Total(news, id), VenueFilled(p, id), id in w.retired);
      assert w'.rows[id] == Topped(w.rows[id], Total(news, id));
    } else {
      NewsElsewhere(w, p, m, id);
    }
  }

  lemma NewsPositive(w: World, p: Paper, m: string, id: OrderId)
    requires HistoryAgrees(w, p)
    ensures Total(News(w, History(p, m)), id) >= 0.0
  {
    FillsetPositive(w, p, m);
    TotalMonotone(News(w, History(p, m)), News(w, History(p, m)), id);
  }

  lemma NewsElsewhere(w: World, p: Paper, m: string, id: OrderId)
    requires Sync(w, p) && id.chain.slug != m
    ensures Total(w.fills.Values + News(w, History(p, m)), id) == Total(w.fills.Values, id)
  {
    var news := News(w, History(p, m));
    forall f | f in Of(w.fills.Values + news, id)
      ensures f in w.fills.Values
    {
      if f in news { InHistory(w, p, m, f); }
    }
    assert Of(w.fills.Values + news, id) == Of(w.fills.Values, id);
    TotalOf(w.fills.Values + news, id);
    TotalOf(w.fills.Values, id);
  }

  /** A poll never raises, keeps the two sides together, and stores everything reported. */
  lemma PollKeeps(w: World, p: Paper, m: string)
    requires Sync(w, p)
    ensures !IngestAll(w, m, History(p, m)).raised
    ensures var w' := After(w, m, History(p, m)); Sync(w', p) && Drained(w', p, m)
  {
    var w' := After(w, m, History(p, m));
    SyncKeyed(w, p);
    NewsIsConsistent(w, p, m);
    NewsIsRoomy(w, p, m);
    BatchOutcome(w, m, History(p, m));
    PollStores(w, w', p, m);
    forall id | id in w.rows
      ensures w'.rows[id].filled == StoredFilled(w', id)
      ensures SameTerms(w'.rows[id], w.rows[id]) && w'.rows[id].state == ExpectedState(w'.rows[id], id in w.retired)
      ensures id in w.retired ==> w'.rows[id].filled == w.rows[id].filled
    {
      PollRow(w, w', p, m, id);
    }
    SyncOverRows(w, w', p);
  }

  /** Agreement depends on the local rows through their terms, progress and cancels only. */
  lemma SyncOverRows(w: World, w': World, p: Paper)
    requires Sync(w, p) && StoreAgrees(w', p)
    requires w'.rows.Keys == w.rows.Keys && w'.accepted == w.accepted && w'.retired == w.retired
    requires forall id | id in w.rows ::
               && SameTerms(w'.rows[id], w.rows[id])
               && w'.rows[id].filled == StoredFilled(w', id)
               && w'.rows[id].id == id
               && w'.rows[id].state == ExpectedState(w'.rows[id], id in w.retired)
               && (id in w.retired ==> w'.rows[id].filled == w.rows[id].filled)
    ensures Sync(w', p)
  {
    forall id | id in w'.rows
      ensures RowAgrees(w', p, id)
    {
      assert RowAgrees(w, p, id);
    }
    forall id
      ensures RestsRight(w', p, id)
    {
      assert RestsRight(w, p, id);
    }
    forall m, i | 0 <= i < |History(p, m)|
      ensures WellFilled(w', p, m, History(p, m)[i])
    {
      assert WellFilled(w, p, m, History(p, m)[i]);
    }
  }

  // ── a placement and a cancel ──────────────────────────────────────────────

  lemma NothingYet(w: World, p: Paper, id: OrderId)
    requires HistoryAgrees(w, p) && StoreAgrees(w, p) && id !in w.rows
    ensures VenueFilled(p, id) == 0.0 == Total(w.fills.Values, id)
  {
    var m := id.chain.slug;
    forall f | f in Fillset(p, m)
      ensures f.order != id
    {
      InHistory(w, p, m, f);
    }
    forall f | f in w.fills.Values
      ensures f.order != id
    {
      InHistory(w, p, f.market, f);
    }
    assert Of(Fillset(p, m), id) == {} == Of(w.fills.Values, id);
    TotalOf(Fillset(p, m), id);
    TotalOf(w.fills.Values, id);
  }

  /** What a placement leaves: the row as answered, the id taken on. */
  function AfterPlace(w: World, row: Row, venueId: string): World {
    w.(rows := w.rows[row.id := Settled(row, Accepted(venueId))], accepted := w.accepted + [row.id])
  }

  lemma PlaceKeeps(w: World, p: Paper, row: Row, venueId: string)
    requires Sync(w, p) && row.id !in w.rows && Plain(row.id.chain)
    requires row.state.Pending? && row.filled == 0.0 && row.size >= 0.0
    ensures row.id !in p.resting && Sync(AfterPlace(w, row, venueId), Placed(p, row))
  {
    var w', p' := AfterPlace(w, row, venueId), Placed(p, row);
    NothingYet(w, p, row.id);
    assert RestsRight(w, p, row.id);
    assert w'.fills == w.fills;
    forall id
      ensures VenueFilled(p', id) == VenueFilled(p, id) && StoredFilled(w', id) == StoredFilled(w, id)
    {
      assert History(p', id.chain.slug) == History(p, id.chain.slug);
    }
    forall id | id in w'.rows
      ensures RowAgrees(w', p', id)
    {
      assert id in w.rows ==> RowAgrees(w, p, id);
    }
    BookTakesOn(w, p, row, venueId);
    HistorySurvives(w, p, w', p');
  }

  lemma BookTakesOn(w: World, p: Paper, row: Row, venueId: string)
    requires BookAgrees(w, p) && w.retired <= w.rows.Keys && row.id !in w.rows
    requires row.filled == 0.0 && row.size >= 0.0 && VenueFilled(p, row.id) == 0.0
    ensures BookAgrees(AfterPlace(w, row, venueId), Placed(p, row))
  {
    var w', p' := AfterPlace(w, row, venueId), Placed(p, row);
    assert RestsRight(w, p, row.id);
    forall id
      ensures RestsRight(w', p', id)
    {
      assert History(p', id.chain.slug) == History(p, id.chain.slug);
      assert RestsRight(w, p, id);
    }
  }

  /** An unchanged history still agrees with rows that were only added to or moved on. */
  lemma HistorySurvives(w: World, p: Paper, w': World, p': Paper)
    requires HistoryAgrees(w, p) && StoreAgrees(w, p) && w'.fills == w.fills && p'.fills == p.fills
    requires w.rows.Keys <= w'.rows.Keys
    ensures HistoryAgrees(w', p') && StoreAgrees(w', p')
  {
    forall m, i | 0 <= i < |History(p', m)|
      ensures WellFilled(w', p', m, History(p', m)[i])
    {
      assert WellFilled(w, p, m, History(p, m)[i]);
    }
    forall m
      ensures OnceEach(History(p', m))
    {
      assert OnceEach(History(p, m));
    }
  }

  function AfterCancel(w: World, row: Row, reason: string): World {
    w.(rows := w.rows[row.id := Moved(row, Cancelled, reason)], retired := w.retired + {row.id})
  }

  lemma CancelKeeps(w: World, p: Paper, id: OrderId, reason: string)
    requires Sync(w, p) && Drained(w, p, id.chain.slug) && id in w.rows && IsLive(w.rows[id].state)
    ensures id in p.resting && Sync(AfterCancel(w, w.rows[id], reason), Withdrawn(p, id))
  {
    var w', p' := AfterCancel(w, w.rows[id], reason), Withdrawn(p, id);
    DrainedAgrees(w, p, id);
    assert RowAgrees(w, p, id);
    assert w'.fills == w.fills;
    forall k
      ensures VenueFilled(p', k) == VenueFilled(p, k) && StoredFilled(w', k) == StoredFilled(w, k)
    {
      assert History(p', k.chain.slug) == History(p, k.chain.slug);
    }
    forall k | k in w'.rows
      ensures RowAgrees(w', p', k)
    {
      assert RowAgrees(w, p, k);
    }
    forall k
      ensures RestsRight(w', p', k)
    {
      assert RestsRight(w, p, k);
    }
    HistorySurvives(w, p, w', p');
  }

  // ── a trade ───────────────────────────────────────────────────────────────

  /** One execution, in the venue's own book. */
  lemma ExecutionCounts(w: World, p: Paper, x: Cross, id: OrderId, traded: real)
    requires Sync(w, p) && id in p.resting && 0.0 < traded && id.chain.slug == x.market
    ensures var f := FillFor(x, id, p.resting[id], traded);
            && f !in History(p, x.market)
            && (forall g | g in History(p, x.market) :: g.id != f.id)
            && VenueFilled(Executed(p, x, id, traded), id) == VenueFilled(p, id) + traded
            && (forall other | other != id :: VenueFilled(Executed(p, x, id, traded), other) == VenueFilled(p, other))
  {
    var m := x.market;
    var f, p' := FillFor(x, id, p.resting[id], traded), Executed(p, x, id, traded);
    assert RestsRight(w, p, id);
    forall g | g in History(p, m)
      ensures g.id != f.id
    {
      InHistory(w, p, m, g);
    }
    assert Fillset(p', m) == Fillset(p, m) + {f};
    forall other
      ensures VenueFilled(p', other) == VenueFilled(p, other) + if other == id then traded else 0.0
    {
      if other.chain.slug == m {
        TotalAdd(Fillset(p, m), f, other);
      } else {
        assert History(p', other.chain.slug) == History(p, other.chain.slug);
      }
    }
  }

  lemma ExecutionKeeps(w: World, p: Paper, x: Cross, id: OrderId, traded: real)
    requires Sync(w, p) && id in p.resting && 0.0 < traded <= p.resting[id].Open()
    requires id.chain.slug == x.market && MatchedEngine(OrderText(id), x.market) == id.chain.engine
    ensures Sync(w, Executed(p, x, id, traded))
  {
    var p' := Executed(p, x, id, traded);
    ExecutionCounts(w, p, x, id, traded);
    assert RestsRight(w, p, id);
    forall k | k in w.rows
      ensures RowAgrees(w, p', k)
    {
      assert RowAgrees(w, p, k);
    }
    ExecutionBooks(w, p, x, id, traded);
    ExecutionHistory(w, p, x, id, traded);
  }

  lemma ExecutionBooks(w: World, p: Paper, x: Cross, id: OrderId, traded: real)
    requires BookAgrees(w, p) && id in p.resting && 0.0 < traded <= p.resting[id].Open()
    requires forall k :: VenueFilled(Executed(p, x, id, traded), k) == VenueFilled(p, k) + if k == id then traded else 0.0
    ensures BookAgrees(w, Executed(p, x, id, traded))
  {
    forall k
      ensures RestsRight(w, Executed(p, x, id, traded), k)
    {
      assert RestsRight(w, p, k);
    }
  }

  lemma ExecutionHistory(w: World, p: Paper, x: Cross, id: OrderId, traded: real)
    requires Sync(w, p) && id in p.resting && 0.0 < traded && id.chain.slug == x.market
    requires MatchedEngine(OrderText(id), x.market) == id.chain.engine
    ensures HistoryAgrees(w, Executed(p, x, id, traded)) && StoreAgrees(w, Executed(p, x, id, traded))
  {
    var p', f := Executed(p, x, id, traded), FillFor(x, id, p.resting[id], traded);
    var h := History(p, x.market);
    ExecutionCounts(w, p, x, id, traded);
    NewFillWell(w, p, x, id, traded);
    assert History(p', x.market) == h + [f];
    forall m, i | 0 <= i < |History(p', m)|
      ensures WellFilled(w, p', m, History(p', m)[i])
    {
      if m != x.market || i < |h| {
        assert WellFilled(w, p, m, History(p, m)[i]);
        OldFillWell(w, p, p', m, History(p, m)[i]);
      }
    }
    forall m
      ensures OnceEach(History(p', m))
    {
      assert OnceEach(History(p, m));
      if m == x.market { OnceMore(h, f); }
    }
  }

  lemma OnceMore(h: seq<Fill>, f: Fill)
    requires OnceEach(h) && forall g | g in h :: g.id != f.id
    ensures OnceEach(h + [f])
  {
  }

  lemma OldFillWell(w: World, p: Paper, p': Paper, m: string, f: Fill)
    requires WellFilled(w, p, m, f) && VenueFilled(p, f.order) <= VenueFilled(p', f.order)
    ensures WellFilled(w, p', m, f)
  {
  }

  lemma NewFillWell(w: World, p: Paper, x: Cross, id: OrderId, traded: real)
    requires Sync(w, p) && id in p.resting && 0.0 < traded && id.chain.slug == x.market
    requires MatchedEngine(OrderText(id), x.market) == id.chain.engine
    ensures WellFilled(w, Executed(p, x, id, traded), x.market, FillFor(x, id, p.resting[id], traded))
  {
    ExecutionCounts(w, p, x, id, traded);
    assert RestsRight(w, p, id);
  }

  lemma TradeOneKeeps(w: World, t: Tape, x: Cross, id: OrderId)
    requires Sync(w, t.venue) && (id in w.rows ==> Distinctive(x.market, id.chain.engine))
    ensures Sync(w, TradeOne(t, x, id).venue)
  {
    if Trades(t, x, id) {
      assert RestsRight(w, t.venue, id) && RowAgrees(w, t.venue, id);
      MatchIsMarket(id, x.market);
      ExecutionKeeps(w, t.venue, x, id, Traded(t, id));
    }
  }

  lemma {:induction false} TradeKeeps(w: World, t: Tape, x: Cross, ids: seq<OrderId>)
    requires Sync(w, t.venue) && forall id | id in w.rows :: Distinctive(x.market, id.chain.engine)
    ensures Sync(w, TradeAll(t, x, ids).venue)
    decreases |ids|
  {
    if ids != [] {
      TradeKeeps(w, t, x, ids[..|ids| - 1]);
      TradeOneKeeps(w, TradeAll(t, x, ids[..|ids| - 1]), x, ids[|ids| - 1]);
    }
  }

  // ── effects whose answers come from this venue ────────────────────────────

  /** The venue after an effect. */
  function Sees(w: World, p: Paper, e: Effect): Paper {
    match e
    case Place(id, _) => if id in w.rows then Placed(p, w.rows[id]) else p
    case Cancel(id, _) => Withdrawn(p, id)
    case _ => p
  }

  /** The answer the effect records is the one this venue gives. */
  predicate Says(p: Paper, e: Effect) {
    match e
    case Place(id, a) => a == PlaceAnswerOf(p, id)
    case Cancel(id, a) => a == CancelAnswerOf(p, id)
    case _ => true
  }

  function Follow(w: World, p: Paper, es: seq<Effect>): Paper
    decreases |es|
  {
    if es == [] then p else Follow(Apply(w, es[0]), Sees(w, p, es[0]), es[1..])
  }

  predicate Honest(w: World, p: Paper, es: seq<Effect>)
    decreases |es|
  {
    es == [] || (Says(p, es[0]) && Honest(Apply(w, es[0]), Sees(w, p, es[0]), es[1..]))
  }

  lemma FollowCons(w: World, p: Paper, e: Effect, es: seq<Effect>)
    ensures Follow(w, p, [e] + es) == Follow(Apply(w, e), Sees(w, p, e), es)
    ensures Honest(w, p, [e] + es) <==> Says(p, e) && Honest(Apply(w, e), Sees(w, p, e), es)
    ensures ApplyAll(w, [e] + es) == ApplyAll(Apply(w, e), es)
  {
    assert ([e] + es)[1..] == es;
  }

  /** Save a new row, send it, record the answer: what it comes to here. */
  lemma PlacementLeaves(w: World, p: Paper, row: Row, answer: PlaceAnswer)
    requires row.id !in w.rows && row.id !in p.resting && row.state.Pending?
    requires Honest(w, p, ReplaceEffects(row, answer))
    ensures answer.Accepted?
    ensures ApplyAll(w, ReplaceEffects(row, answer)) == AfterPlace(w, row, answer.venueId)
    ensures Follow(w, p, ReplaceEffects(row, answer)) == Placed(p, row)
  {
    var a, b, c := SaveRow(row), Place(row.id, answer), SaveRow(Settled(row, answer));
    assert ReplaceEffects(row, answer) == [a] + ([b] + ([c] + []));
    FollowCons(w, p, a, [b] + ([c] + []));
    var w1 := Apply(w, a);
    FollowCons(w1, p, b, [c] + []);
    var w2 := Apply(w1, b);
    FollowCons(w2, Placed(p, row), c, []);
    assert Apply(w2, c).rows == w.rows[row.id := Settled(row, answer)];
  }

  lemma PlacingKeeps(w: World, p: Paper, row: Row, answers: Answers)
    requires Sync(w, p) && Fresh(row) && Plain(row.id.chain)
    requires Honest(w, p, PlaceOneEffects(w.rows, row, answers))
    ensures var es := PlaceOneEffects(w.rows, row, answers); Sync(ApplyAll(w, es), Follow(w, p, es))
  {
    if row.id !in w.rows {
      assert RestsRight(w, p, row.id);
      FollowCons(w, p, SaveRow(row), Attempts(row, answers, 1));
      assert Attempts(row, answers, 1)[0] == Place(row.id, answers(1));
      assert PlaceOneEffects(w.rows, row, answers) == ReplaceEffects(row, answers(1));
      PlacementLeaves(w, p, row, answers(1));
      PlaceKeeps(w, p, row, answers(1).venueId);
    }
  }

  /** Ask for a cancel, record it: what it comes to here when everything reported is stored. */
  lemma {:induction false} CancelLeaves(w: World, p: Paper, id: OrderId, answer: CancelAnswer, gone: Row, rest: seq<Effect>)
    requires Sync(w, p) && Drained(w, p, id.chain.slug) && id in w.rows && IsLive(w.rows[id].state)
    requires gone == Moved(w.rows[id], Cancelled, gone.reason) && gone.reason != ""
    requires Honest(w, p, [Cancel(id, answer), SaveRow(gone)] + rest)
    ensures var w1, p1 := AfterCancel(w, w.rows[id], gone.reason), Withdrawn(p, id);
            && Sync(w1, p1)
            && Honest(w1, p1, rest)
            && ApplyAll(w, [Cancel(id, answer), SaveRow(gone)] + rest) == ApplyAll(w1, rest)
            && Follow(w, p, [Cancel(id, answer), SaveRow(gone)] + rest) == Follow(w1, p1, rest)
  {
    DrainedAgrees(w, p, id);
    assert RowAgrees(w, p, id);
    CancelKeeps(w, p, id, gone.reason);
    assert [Cancel(id, answer), SaveRow(gone)] + rest == [Cancel(id, answer)] + ([SaveRow(gone)] + rest);
    FollowCons(w, p, Cancel(id, answer), [SaveRow(gone)] + rest);
    FollowCons(Apply(w, Cancel(id, answer)), Withdrawn(p, id), SaveRow(gone), rest);
    assert Apply(Apply(w, Cancel(id, answer)), SaveRow(gone)).rows == AfterCancel(w, w.rows[id], gone.reason).rows;
  }

  lemma CancelAcknowledged(w: World, p: Paper, id: OrderId, answer: CancelAnswer, rest: seq<Effect>)
    requires Sync(w, p) && Drained(w, p, id.chain.slug) && id in w.rows && IsLive(w.rows[id].state)
    requires Honest(w, p, [Cancel(id, answer)] + rest)
    ensures answer.Acknowledged?
  {
    DrainedAgrees(w, p, id);
    FollowCons(w, p, Cancel(id, answer), rest);
  }

  lemma SweepingKeeps(w: World, p: Paper, id: OrderId, a: CancelAnswer)
    requires Sync(w, p) && Drained(w, p, id.chain.slug) && id in w.rows && IsLive(w.rows[id].state)
    requires Honest(w, p, Sweep.CancelOneEffects(w.rows[id], a))
    ensures var es := Sweep.CancelOneEffects(w.rows[id], a); Sync(ApplyAll(w, es), Follow(w, p, es))
  {
    assert RowAgrees(w, p, id);
    var es := Sweep.CancelOneEffects(w.rows[id], a);
    assert es == [es[0]] + es[1..] && es[0] == Cancel(id, a);
    CancelAcknowledged(w, p, id, a, es[1..]);
    var gone := Moved(w.rows[id], Cancelled, "settlement sweep");
    assert es == [Cancel(id, a), SaveRow(gone)] + [];
    CancelLeaves(w, p, id, a, gone, []);
  }

  lemma RepricingKeeps(w: World, p: Paper, l: Limits, patience: nat, passes: map<ChainKey, nat>, id: OrderId, v: Venue)
    requires Inv(w, l) && Sync(w, p) && Drained(w, p, id.chain.slug) && id in w.rows && IsLive(w.rows[id].state)
    requires Honest(w, p, RepriceOutcome(l, patience, passes, w.rows[id], v).effects)
    ensures var es := RepriceOutcome(l, patience, passes, w.rows[id], v).effects; Sync(ApplyAll(w, es), Follow(w, p, es))
  {
    var row := w.rows[id];
    var es := RepriceOutcome(l, patience, passes, row, v).effects;
    assert RowAgrees(w, p, id);
    if es != [] {
      assert es == [es[0]] + es[1..] && es[0] == Cancel(id, v.cancel);
      CancelAcknowledged(w, p, id, v.cancel, es[1..]);
      NoSuccessorBeforeCancel(w, l, id);
      var gone := Cancelling(row);
      var price := Target(l, id.chain.offset, row.price, v.best, row.direction).value;
      var next := Successor(row, price);
      var rest := if row.Remaining() <= 0.0 then [] else ReplaceEffects(next, v.place);
      assert es == [Cancel(id, v.cancel), SaveRow(gone)] + rest;
      CancelLeaves(w, p, id, v.cancel, gone, rest);
      if row.Remaining() > 0.0 {
        var w1, p1 := AfterCancel(w, row, gone.reason), Withdrawn(p, id);
        assert RestsRight(w1, p1, next.id);
        PlacementLeaves(w1, p1, next, v.place);
        PlaceKeeps(w1, p1, next, v.place.venueId);
      }
    }
  }

  // ── runs of the loop ──────────────────────────────────────────────────────

  datatype Event =
    | Placing(row: Row, answers: Answers)
    | Repricing(id: OrderId, passes: map<ChainKey, nat>, v: Venue)
    | Sweeping(id: OrderId, reply: CancelAnswer)
    | Trading(x: Cross, size: real, ids: seq<OrderId>)
    | Polling(market: string)

  datatype Loop = Loop(w: World, p: Paper)

  function EffectsOf(s: Loop, l: Limits, patience: nat, e: Event): seq<Effect> {
    match e
    case Placing(row, answers) => PlaceOneEffects(s.w.rows, row, answers)
    case Repricing(id, passes, v) => if id in s.w.rows then RepriceOutcome(l, patience, passes, s.w.rows[id], v).effects else []
    case Sweeping(id, reply) => if id in s.w.rows then Sweep.CancelOneEffects(s.w.rows[id], reply) else []
    case Trading(_, _, _) => []
    case Polling(m) => IngestAll(s.w, m, History(s.p, m)).effects
  }

  /** What the code checks before it acts, and the venue's answers are this venue's. */
  predicate Allowed(s: Loop, l: Limits, patience: nat, e: Event) {
    && Honest(s.w, s.p, EffectsOf(s, l, patience, e))
    && match e
       case Placing(row, _) => Fresh(row) && Plain(row.id.chain)
       case Repricing(id, _, _) => id in s.w.rows && IsLive(s.w.rows[id].state)
       case Sweeping(id, _) => id in s.w.rows && IsLive(s.w.rows[id].state)
       case Trading(x, _, _) => forall id | id in s.w.rows :: Distinctive(x.market, id.chain.engine)
       case Polling(_) => true
  }

  /** Nothing is cancelled, by a reprice or a sweep, before all its market's venue reported has been polled in. */
  predicate Enabled(s: Loop, l: Limits, patience: nat, e: Event) {
    Allowed(s, l, patience, e) && (e.Repricing? || e.Sweeping? ==> Drained(s.w, s.p, e.id.chain.slug))
  }

  function Step(s: Loop, l: Limits, patience: nat, e: Event): Loop {
    var es := EffectsOf(s, l, patience, e);
    Loop(ApplyAll(s.w, es),
         if e.Trading? then TradeAll(Tape(s.p, e.size, []), e.x, e.ids).venue else Follow(s.w, s.p, es))
  }

  ghost predicate LoopOk(s: Loop, l: Limits) {
    Inv(s.w, l) && Sync(s.w, s.p)
  }

  lemma EventSound(s: Loop, l: Limits, patience: nat, e: Event)
    requires LoopOk(s, l) && Allowed(s, l, patience, e)
    ensures Sound(s.w, l, EffectsOf(s, l, patience, e), e.Polling?)
  {
    match e
    case Placing(row, answers) => PlaceOneSound(s.w, l, row, answers);
    case Repricing(id, passes, v) =>
      assert RowAgrees(s.w, s.p, id);
      RepriceSound(s.w, l, patience, passes, s.w.rows[id], v);
    case Sweeping(id, reply) =>
      assert RowAgrees(s.w, s.p, id);
      Sweep.CancelOneSound(s.w, l, s.w.rows[id], reply);
    case Trading(_, _, _) =>
    case Polling(m) => IngestSound(s.w, l, m, History(s.p, m));
  }

  /** A poll reads the venue and asks it nothing. */
  lemma {:induction false} SavesOnly(w: World, p: Paper, es: seq<Effect>)
    requires forall i | 0 <= i < |es| :: es[i].SaveRow? || es[i].SaveFill?
    ensures Follow(w, p, es) == p
    decreases |es|
  {
    if es != [] {
      SavesOnly(Apply(w, es[0]), p, es[1..]);
    }
  }

  lemma {:induction false} IngestSaves(w: World, m: string, batch: seq<Fill>)
    ensures forall i | 0 <= i < |IngestAll(w, m, batch).effects| ::
              IngestAll(w, m, batch).effects[i].SaveRow? || IngestAll(w, m, batch).effects[i].SaveFill?
    decreases |batch|
  {
    if batch != [] && !IngestOne(w, m, batch[0]).raised {
      IngestSaves(ApplyAll(w, IngestOne(w, m, batch[0]).effects), m, batch[1..]);
    }
  }

  lemma StepKeeps(s: Loop, l: Limits, patience: nat, e: Event)
    requires LoopOk(s, l) && Enabled(s, l, patience, e)
    ensures LoopOk(Step(s, l, patience, e), l)
    ensures e.Polling? ==> Drained(Step(s, l, patience, e).w, Step(s, l, patience, e).p, e.market)
  {
    var es := EffectsOf(s, l, patience, e);
    EventSound(s, l, patience, e);
    InvAfter(s.w, l, es, e.Polling?);
    match e
    case Placing(row, answers) => PlacingKeeps(s.w, s.p, row, answers);
    case Repricing(id, passes, v) => RepricingKeeps(s.w, s.p, l, patience, passes, id, v);
    case Sweeping(id, reply) => SweepingKeeps(s.w, s.p, id, reply);
    case Trading(x, size, ids) => TradeKeeps(s.w, Tape(s.p, size, []), x, ids);
    case Polling(m) =>
      IngestSaves(s.w, m, History(s.p, m));
      SavesOnly(s.w, s.p, es);
      PollKeeps(s.w, s.p, m);
  }

  predicate Possible(s: Loop, l: Limits, patience: nat, run: seq<Event>)
    decreases |run|
  {
    run == [] || (Enabled(s, l, patience, run[0]) && Possible(Step(s, l, patience, run[0]), l, patience, run[1..]))
  }

  function Final(s: Loop, l: Limits, patience: nat, run: seq<Event>): Loop
    decreases |run|
  {
    if run == [] then s else Final(Step(s, l, patience, run[0]), l, patience, run[1..])
  }

  const START: Loop := Loop(World(map[], map[], map[], [], {}), Paper(map[], map[], map[], 1))

  lemma StartOk(l: Limits)
    ensures LoopOk(START, l)
  {
    forall id
      ensures RestsRight(START.w, START.p, id)
    {
    }
  }

  lemma {:induction false} RunKeeps(s: Loop, l: Limits, patience: nat, run: seq<Event>)
    requires LoopOk(s, l) && Possible(s, l, patience, run)
    ensures LoopOk(Final(s, l, patience, run), l)
    ensures run != [] && run[|run| - 1].Polling? ==>
              Drained(Final(s, l, patience, run).w, Final(s, l, patience, run).p, run[|run| - 1].market)
    decreases |run|
  {
    if run != [] {
      StepKeeps(s, l, patience, run[0]);
      RunKeeps(Step(s, l, patience, run[0]), l, patience, run[1..]);
    }
  }

  /**
   After every poll of a run, for every order of the polled market: the local filled size, the sum of
   its stored fills and the venue's own figure are one number; while it rests the venue's entry shows
   that number; and it is FILLED locally exactly when matching, not a cancel, took it off the book.
   */
  lemma {:induction false} EveryPollAgrees(l: Limits, patience: nat, run: seq<Event>, id: OrderId)
    requires Possible(START, l, patience, run) && run != [] && run[|run| - 1] == Polling(id.chain.slug)
    requires id in Final(START, l, patience, run).w.rows
    ensures var s := Final(START, l, patience, run);
            var row := s.w.rows[id];
            && row.filled == Total(s.w.fills.Values, id) == VenueFilled(s.p, id)
            && (id in s.p.resting ==> s.p.resting[id].filled == row.filled)
            && (row.state.Filled? <==> id !in s.p.resting && id !in s.w.retired)
            && (IsLive(row.state) <==> id in s.p.resting)
  {
    StartOk(l);
    RunKeeps(START, l, patience, run);
    var s := Final(START, l, patience, run);
    DrainedAgrees(s.w, s.p, id);
    assert RowAgrees(s.w, s.p, id) && RestsRight(s.w, s.p, id);
  }

  /** What the venue has executed of a chain's first `n` generations. */
  ghost function ChainFilled(p: Paper, chain: ChainKey, n: nat): real {
    if n == 0 then 0.0 else ChainFilled(p, chain, n - 1) + VenueFilled(p, OrderId(chain, n - 1))
  }

  /** A cancelled generation's fills are all on record. */
  lemma {:induction false} EarlierFills(w: World, p: Paper, l: Limits, id: OrderId, n: nat)
    requires Inv(w, l) && Sync(w, p) && id in w.rows && n <= id.generation
    ensures ChainFilled(p, id.chain, n) == FilledBelow(w.rows, id.chain, n)
    decreases n
  {
    if n > 0 {
      EarlierFills(w, p, l, id, n - 1);
      EarlierGenerations(w, l, id, n - 1);
      assert RowAgrees(w, p, OrderId(id.chain, n - 1));
    }
  }

  lemma {:induction false} ChainWithin(w: World, p: Paper, l: Limits, chain: ChainKey, n: nat)
    requires Inv(w, l) && Sync(w, p) && OrderId(chain, 0) in w.rows
    ensures ChainFilled(p, chain, n) <= w.rows[OrderId(chain, 0)].size
    decreases n
  {
    assert RowOk(OrderId(chain, 0), w.rows[OrderId(chain, 0)]);
    if n > 0 {
      var last := OrderId(chain, n - 1);
      if last in w.rows {
        assert RowAgrees(w, p, last);
        EarlierFills(w, p, l, last, n - 1);
        ExposureConserved(w, l, last);
      } else {
        NothingYet(w, p, last);
        ChainWithin(w, p, l, chain, n - 1);
      }
    }
  }

  /** At every point of a run, all a chain has filled at the venue is within its approved size. */
  lemma ChainNeverOverfills(l: Limits, patience: nat, run: seq<Event>, chain: ChainKey, n: nat)
    requires Possible(START, l, patience, run) && OrderId(chain, 0) in Final(START, l, patience, run).w.rows
    ensures var s := Final(START, l, patience, run);
            ChainFilled(s.p, chain, n) <= s.w.rows[OrderId(chain, 0)].size
  {
    StartOk(l);
    RunKeeps(START, l, patience, run);
    ChainWithin(Final(START, l, patience, run).w, Final(START, l, patience, run).p, l, chain, n);
  }

  /** No fill id is ever issued twice over a run. */
  lemma FillIdsDistinct(l: Limits, patience: nat, run: seq<Event>, m: string, m': string, i: nat, j: nat)
    requires Possible(START, l, patience, run)
    requires var p := Final(START, l, patience, run).p; i < |History(p, m)| && j < |History(p, m')| && (m != m' || i != j)
    ensures var p := Final(START, l, patience, run).p; History(p, m)[i].id != History(p, m')[j].id
  {
    StartOk(l);
    RunKeeps(START, l, patience, run);
    var s := Final(START, l, patience, run);
    assert WellFilled(s.w, s.p, m, History(s.p, m)[i]) && WellFilled(s.w, s.p, m', History(s.p, m')[j]);
    assert OnceEach(History(s.p, m));
  }
}
