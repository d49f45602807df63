/** Folding venue-reported fills into storage and order rows. */
module Fills {
  import opened Ids
  import opened Orders
  import opened Backend
  import opened Chains

  /** The batch belongs to a market; a fill is linked when that market has a row for its order. */
  predicate IsLinked(rows: map<OrderId, Row>, slug: string, f: Fill) {
    f.order in rows && f.order.chain.slug == slug
  }

  /** A linked fill inherits the engine of the order it filled. */
  function Norm(rows: map<OrderId, Row>, slug: string, f: Fill): Fill {
    if IsLinked(rows, slug, f) then f.(engine := f.order.chain.engine) else f
  }

  /** What one fill does: its effects, whether it was new, whether the order refused it. */
  datatype Step = Step(effects: seq<Effect>, isNew: bool, raised: bool)

  function IngestOne(w: World, slug: string, f: Fill): Step {
    var g := Norm(w.rows, slug, f);
    if f.size <= 0.0 then Step([], false, false)
    else if f.id in w.fills then Step([SaveFill(g)], false, false)
    else if !IsLinked(w.rows, slug, f) then Step([SaveFill(g)], true, false)
    else
      var row := w.rows[f.order];
      if CanFill(row, f.size) then Step([SaveFill(g), SaveRow(WithFill(row, f.size))], true, false)
      else Step([SaveFill(g)], true, true)
  }

  /** A whole batch: effects until the end or the first refusal, the new fills, and whether it raised. */
  datatype Result = Result(effects: seq<Effect>, accepted: seq<Fill>, raised: bool)

  function IngestAll(w: World, slug: string, batch: seq<Fill>): Result
    decreases |batch|
  {
    if batch == [] then Result([], [], false)
    else
      var s := IngestOne(w, slug, batch[0]);
      var first := if s.isNew then [Norm(w.rows, slug, batch[0])] else [];
      if s.raised then Result(s.effects, first, true)
      else
        var rest := IngestAll(ApplyAll(w, s.effects), slug, batch[1..]);
        Result(s.effects + rest.effects, first + rest.accepted, rest.raised)
  }

  function After(w: World, slug: string, batch: seq<Fill>): World {
    ApplyAll(w, IngestAll(w, slug, batch).effects)
  }

  lemma {:induction false} IngestFirst(w: World, slug: string, batch: seq<Fill>)
    requires batch != [] && !IngestOne(w, slug, batch[0]).raised
    ensures var w1 := ApplyAll(w, IngestOne(w, slug, batch[0]).effects);
            && After(w, slug, batch) == After(w1, slug, batch[1..])
            && IngestAll(w, slug, batch).raised == IngestAll(w1, slug, batch[1..]).raised
  {
    var s := IngestOne(w, slug, batch[0]);
    ApplyAllConcat(w, s.effects, IngestAll(ApplyAll(w, s.effects), slug, batch[1..]).effects);
  }

  /** Ingesting any batch, even one that raises, keeps every chain safe at every crash point. */
  lemma {:induction false} IngestSound(w: World, l: Limits, slug: string, batch: seq<Fill>)
    requires Inv(w, l)
    ensures Sound(w, l, IngestAll(w, slug, batch).effects, true)
    decreases |batch|
  {
    if batch != [] {
      var s := IngestOne(w, slug, batch[0]);
      if !s.raised {
        InvAfter(w, l, s.effects, true);
        IngestSound(ApplyAll(w, s.effects), l, slug, batch[1..]);
        SoundConcat(w, l, s.effects, IngestAll(ApplyAll(w, s.effects), slug, batch[1..]).effects, true);
      }
    }
  }

  // ── convergence ───────────────────────────────────────────────────────────

  /** The quantity of a set of fills that belongs to one order. */
  ghost function Total(fs: set<Fill>, id: OrderId): real
    decreases fs
  {
    if fs == {} then 0.0
    else
      var f :| f in fs;
      Share(f, id) + Total(fs - {f}, id)
  }

  function Share(f: Fill, id: OrderId): real {
    if f.order == id then f.size else 0.0
  }

  lemma {:induction false} TotalSplit(fs: set<Fill>, f: Fill, id: OrderId)
    requires f in fs
    ensures Total(fs, id) == Share(f, id) + Total(fs - {f}, id)
    decreases fs
  {
    var g :| g in fs && Total(fs, id) == Share(g, id) + Total(fs - {g}, id);
    if g != f {
      TotalSplit(fs - {g}, f, id);
      TotalSplit(fs - {f}, g, id);
      assert fs - {g} - {f} == fs - {f} - {g};
    }
  }

  lemma TotalAdd(fs: set<Fill>, f: Fill, id: OrderId)
    requires f !in fs
    ensures Total(fs + {f}, id) == Total(fs, id) + Share(f, id)
  {
    TotalSplit(fs + {f}, f, id);
    assert fs + {f} - {f} == fs;
  }

  lemma {:induction false} TotalMonotone(a: set<Fill>, b: set<Fill>, id: OrderId)
    requires a <= b && forall f | f in b :: f.size > 0.0
    ensures 0.0 <= Total(a, id) <= Total(b, id)
    decreases b
  {
    if b != {} {
      var f :| f in b;
      TotalSplit(b, f, id);
      TotalMonotone(a - {f}, b - {f}, id);
      if f in a { TotalSplit(a, f, id); } else { assert a - {f} == a; }
    }
  }

  lemma {:induction false} TotalUnion(a: set<Fill>, b: set<Fill>, id: OrderId)
    requires a !! b
    ensures Total(a + b, id) == Total(a, id) + Total(b, id)
    decreases b
  {
    if b == {} {
      assert a + b == a;
    } else {
      var f :| f in b;
      TotalSplit(b, f, id);
      TotalUnion(a, b - {f}, id);
      TotalSplit(a + b, f, id);
      assert a + b - {f} == a + (b - {f});
    }
  }

  function Of(fs: set<Fill>, id: OrderId): set<Fill> {
    set f | f in fs && f.order == id
  }

  /** Only the order's own fills count. */
  lemma {:induction false} TotalOf(fs: set<Fill>, id: OrderId)
    ensures Total(fs, id) == Total(Of(fs, id), id)
    decreases fs
  {
    if fs == {} {
      assert Of(fs, id) == fs;
    } else {
      var f :| f in fs;
      TotalSplit(fs, f, id);
      TotalOf(fs - {f}, id);
      if f.order == id {
        TotalSplit(Of(fs, id), f, id);
        assert Of(fs, id) - {f} == Of(fs - {f}, id);
      } else {
        assert Of(fs, id) == Of(fs - {f}, id);
      }
    }
  }

  /** What a row becomes once new fills worth `t` have landed on it, in whatever order. */
  function Topped(row: Row, t: real): Row {
    if t <= 0.0 then row else WithFill(row, t)
  }

  /** The positive fills of a batch that storage does not hold yet. */
  function News(w: World, batch: seq<Fill>): set<Fill> {
    set f | f in batch && f.size > 0.0 && f.id !in w.fills
  }

  /** One id, one fill. */
  predicate Consistent(fs: set<Fill>) {
    forall f, g | f in fs && g in fs && f.id == g.id :: f == g
  }

  /** Every order that gets new fills is live, and stays so until the last of them, whichever comes last. */
  ghost predicate Roomy(w: World, slug: string, fs: set<Fill>) {
    forall f | f in fs && IsLinked(w.rows, slug, f) :: HasRoom(w.rows[f.order], Total(fs, f.order) - f.size)
  }

  predicate HasRoom(row: Row, others: real) {
    IsLive(row.state) && (others <= 0.0 || row.filled + others < row.size)
  }

  ghost predicate HoldsRows(w0: World, rows: map<OrderId, Row>, slug: string, seen: set<Fill>) {
    && rows.Keys == w0.rows.Keys
    && (forall id | id in w0.rows ::
          rows[id] == if id.chain.slug == slug then Topped(w0.rows[id], Total(seen, id)) else w0.rows[id])
  }

  ghost predicate HoldsFills(w0: World, fills: map<FillId, Fill>, slug: string, seen: set<Fill>) {
    && (forall x | x in w0.fills :: x in fills && fills[x] == w0.fills[x])
    && (forall f | f in seen :: f.id in fills && fills[f.id] == Norm(w0.rows, slug, f))
    && (forall x | x in fills && x !in w0.fills :: exists f | f in seen :: f.id == x)
  }

  /** The world after new fills `seen` have landed. */
  ghost predicate Holds(w0: World, w: World, slug: string, seen: set<Fill>) {
    && w.intents == w0.intents && w.accepted == w0.accepted && w.retired == w0.retired
    && HoldsRows(w0, w.rows, slug, seen)
    && HoldsFills(w0, w.fills, slug, seen)
  }

  /** Two worlds that both hold the same fills are the same world. */
  lemma HoldsDetermines(w0: World, a: World, b: World, slug: string, seen: set<Fill>)
    requires Holds(w0, a, slug, seen) && Holds(w0, b, slug, seen)
    ensures a == b
  {
    assert a.rows == b.rows;
    forall x
      ensures x in a.fills <==> x in b.fills
      ensures x in a.fills ==> a.fills[x] == b.fills[x]
    {
      if x in a.fills && x !in w0.fills {
        var f :| f in seen && f.id == x;
      }
      if x in b.fills && x !in w0.fills {
        var f :| f in seen && f.id == x;
      }
    }
    assert a.fills == b.fills;
  }

  /** The effects of one fill, spelled out. */
  lemma IngestOneApplied(w: World, slug: string, f: Fill)
    ensures var s, g := IngestOne(w, slug, f), Norm(w.rows, slug, f);
            ApplyAll(w, s.effects) ==
              if f.size <= 0.0 || f.id in w.fills then w
              else if IsLinked(w.rows, slug, f) && !s.raised then
                w.(fills := w.fills[f.id := g], rows := Upsert(w.rows, WithFill(w.rows[f.order], f.size)))
              else w.(fills := w.fills[f.id := g])
  {
    var es := IngestOne(w, slug, f).effects;
    if |es| == 2 {
      Two([], w, es[0], es[1]);
      assert es == [es[0], es[1]];
    } else if |es| == 1 {
      ApplyAllOne(w, es[0]);
      assert es == [es[0]];
    }
  }

  lemma {:induction false} RowsTakeFill(w0: World, rows: map<OrderId, Row>, slug: string, seen: set<Fill>, f: Fill)
    requires HoldsRows(w0, rows, slug, seen) && Keyed(w0.rows) && f !in seen && f.size > 0.0
    requires forall g | g in seen :: g.size > 0.0
    requires IsLinked(w0.rows, slug, f) ==> HasRoom(w0.rows[f.order], Total(seen, f.order)) || CanFill(rows[f.order], f.size)
    ensures IsLinked(w0.rows, slug, f) ==>
              CanFill(rows[f.order], f.size) && HoldsRows(w0, Upsert(rows, WithFill(rows[f.order], f.size)), slug, seen + {f})
    ensures !IsLinked(w0.rows, slug, f) ==> HoldsRows(w0, rows, slug, seen + {f})
  {
    forall id | id in w0.rows
      ensures Total(seen + {f}, id) == Total(seen, id) + Share(f, id)
    {
      TotalAdd(seen, f, id);
    }
    TotalMonotone(seen, seen, f.order);
  }

  /** One more new fill, on an order that has room for it. */
  lemma NewFillLands(w0: World, w: World, slug: string, seen: set<Fill>, f: Fill)
    requires Holds(w0, w, slug, seen) && Keyed(w0.rows)
    requires f.size > 0.0 && f.id !in w.fills && (forall g | g in seen :: g.size > 0.0)
    requires IsLinked(w0.rows, slug, f) ==> HasRoom(w0.rows[f.order], Total(seen, f.order)) || !IngestOne(w, slug, f).raised
    ensures var s := IngestOne(w, slug, f); !s.raised && s.isNew && Holds(w0, ApplyAll(w, s.effects), slug, seen + {f})
  {
    assert f !in seen;
    RowsTakeFill(w0, w.rows, slug, seen, f);
    IngestOneApplied(w, slug, f);
    assert Norm(w.rows, slug, f) == Norm(w0.rows, slug, f);
  }

  lemma {:induction false} BatchLands(w0: World, w: World, slug: string, seen: set<Fill>, all: set<Fill>, batch: seq<Fill>)
    requires Holds(w0, w, slug, seen) && Keyed(w0.rows) && seen <= all && Consistent(all)
    requires forall f | f in all :: f.size > 0.0 && f.id !in w0.fills
    requires Roomy(w0, slug, all) || !IngestAll(w, slug, batch).raised
    requires forall f | f in batch && f.size > 0.0 && f.id !in w0.fills :: f in all
    ensures var r := IngestAll(w, slug, batch);
            && !r.raised
            && Holds(w0, After(w, slug, batch), slug, seen + News(w0, batch))
    decreases |batch|
  {
    if batch == [] {
      assert seen + News(w0, batch) == seen;
    } else {
      var f, rest := batch[0], batch[1..];
      var s := IngestOne(w, slug, f);
      var next := if s.isNew then seen + {f} else seen;
      FirstLands(w0, w, slug, seen, all, f);
      BatchLands(w0, ApplyAll(w, s.effects), slug, next, all, rest);
      IngestFirst(w, slug, batch);
      NewsOfFirst(w0, batch, seen, next);
    }
  }

  lemma NewsOfFirst(w0: World, batch: seq<Fill>, seen: set<Fill>, next: set<Fill>)
    requires batch != [] && (next == seen || next == seen + {batch[0]})
    requires batch[0].size > 0.0 && batch[0].id !in w0.fills <==> batch[0] in next
    requires batch[0] in seen ==> next == seen
    ensures seen + News(w0, batch) == next + News(w0, batch[1..])
  {
    assert forall g :: g in batch <==> g == batch[0] || g in batch[1..];
  }

  /** The next fill of a batch: new and landing, or already known and ignored. */
  lemma FirstLands(w0: World, w: World, slug: string, seen: set<Fill>, all: set<Fill>, f: Fill)
    requires Holds(w0, w, slug, seen) && Keyed(w0.rows) && seen <= all && Consistent(all)
    requires Roomy(w0, slug, all) || !IngestOne(w, slug, f).raised
    requires forall g | g in all :: g.size > 0.0 && g.id !in w0.fills
    requires f.size > 0.0 && f.id !in w0.fills ==> f in all
    ensures var s := IngestOne(w, slug, f);
            && !s.raised
            && Holds(w0, ApplyAll(w, s.effects), slug, if s.isNew then seen + {f} else seen)
            && (s.isNew ==> f in all)
            && (f.size > 0.0 && f.id !in w0.fills ==> s.isNew || f in seen)
            && (s.isNew ==> f.size > 0.0 && f.id !in w0.fills)
  {
    if f.size > 0.0 && f.id !in w.fills {
      if IsLinked(w0.rows, slug, f) && Roomy(w0, slug, all) {
        TotalSplit(all, f, f.order);
        assert f !in seen;
        TotalMonotone(seen, all - {f}, f.order);
      }
      NewFillLands(w0, w, slug, seen, f);
    } else {
      IngestOneApplied(w, slug, f);
      if f.size > 0.0 && f.id !in w0.fills {
        var g :| g in seen && g.id == f.id;
        assert g == f;
      }
    }
  }

  /** The fill as reported, but owned by the engine whose order it filled; one of no order of the market as reported. */
  predicate Owned(w: World, slug: string, f: Fill, stored: Fill) {
    && stored.id == f.id && stored.order == f.order && stored.market == f.market && stored.size == f.size && stored.price == f.price
    && stored.engine == if f.order in w.rows && f.order.chain.slug == slug then f.order.chain.engine else f.engine
  }

  /** Every fill of the set is stored, and no other is new. */
  ghost predicate Stores(w: World, fills: map<FillId, Fill>, slug: string, fs: set<Fill>) {
    && (forall f | f in fs :: f.id in fills && Owned(w, slug, f, fills[f.id]))
    && (forall x | x in fills && x !in w.fills :: exists f | f in fs :: f.id == x)
    && (forall x | x in w.fills :: x in fills && fills[x] == w.fills[x])
  }

  /** Each fill of the set is handed back once, as stored, and nothing else is. */
  ghost predicate HandsBack(w: World, slug: string, accepted: seq<Fill>, fs: set<Fill>) {
    && (forall g | g in accepted :: exists f | f in fs :: Owned(w, slug, f, g))
    && (forall f | f in fs :: exists g | g in accepted :: Owned(w, slug, f, g))
    && (forall j, k | 0 <= j < k < |accepted| :: accepted[j].id != accepted[k].id)
  }

  /** A batch that does not raise leaves exactly its new fills behind, under their orders' engines; a roomy one never raises. */
  lemma {:induction false} BatchOutcome(w: World, slug: string, batch: seq<Fill>)
    requires Keyed(w.rows) && Consistent(News(w, batch))
    requires Roomy(w, slug, News(w, batch)) || !IngestAll(w, slug, batch).raised
    ensures !IngestAll(w, slug, batch).raised
    ensures Holds(w, After(w, slug, batch), slug, News(w, batch))
    ensures Stores(w, After(w, slug, batch).fills, slug, News(w, batch))
  {
    assert Holds(w, w, slug, {});
    BatchLands(w, w, slug, {}, News(w, batch), batch);
    assert {} + News(w, batch) == News(w, batch);
  }

  /** What one fill changes of the fills on record. */
  lemma StoredNext(w: World, slug: string, f: Fill)
    ensures var s, w' := IngestOne(w, slug, f), ApplyAll(w, IngestOne(w, slug, f).effects);
            && (s.isNew <==> f.size > 0.0 && f.id !in w.fills)
            && w'.fills == (if s.isNew then w.fills[f.id := Norm(w.rows, slug, f)] else w.fills)
  {
    IngestOneApplied(w, slug, f);
  }

  /** What a batch hands back is what is new in storage, each once and as stored, whether or not it raises. */
  lemma {:induction false} AcceptedIsStored(w: World, slug: string, batch: seq<Fill>)
    ensures var accepted, fills := IngestAll(w, slug, batch).accepted, After(w, slug, batch).fills;
            && (forall x | x in w.fills :: x in fills && fills[x] == w.fills[x])
            && (forall g | g in accepted :: g.id !in w.fills && g.id in fills && fills[g.id] == g)
            && (forall x | x in fills && x !in w.fills :: fills[x] in accepted && fills[x].id == x)
            && (forall j, k | 0 <= j < k < |accepted| :: accepted[j].id != accepted[k].id)
    decreases |batch|
  {
    if batch != [] {
      var s, w1 := IngestOne(w, slug, batch[0]), ApplyAll(w, IngestOne(w, slug, batch[0]).effects);
      StoredNext(w, slug, batch[0]);
      if !s.raised {
        AcceptedIsStored(w1, slug, batch[1..]);
        IngestFirst(w, slug, batch);
        var first, rest := if s.isNew then [Norm(w.rows, slug, batch[0])] else [], IngestAll(w1, slug, batch[1..]).accepted;
        assert IngestAll(w, slug, batch).accepted == first + rest;
        assert forall g | g in first + rest :: g in first || g in rest;
      }
    }
  }

  /** A batch that does not raise hands back exactly its new fills. */
  lemma BatchHandsBack(w: World, slug: string, batch: seq<Fill>)
    requires Keyed(w.rows) && Consistent(News(w, batch)) && !IngestAll(w, slug, batch).raised
    ensures HandsBack(w, slug, IngestAll(w, slug, batch).accepted, News(w, batch))
  {
    BatchOutcome(w, slug, batch);
    AcceptedIsStored(w, slug, batch);
    var accepted, fills := IngestAll(w, slug, batch).accepted, After(w, slug, batch).fills;
    forall f | f in News(w, batch)
      ensures exists g | g in accepted :: Owned(w, slug, f, g)
    {
      assert fills[f.id] in accepted;
    }
    forall g | g in accepted
      ensures exists f | f in News(w, batch) :: Owned(w, slug, f, g)
    {
      var f :| f in News(w, batch) && f.id == g.id;
      assert Owned(w, slug, f, fills[f.id]);
    }
  }

  /**
   Duplicated, permuted or interleaved deliveries of the same fills end in the same world, where each new
   fill is stored under its order's engine, and every order's filled size is its old one plus its distinct
   new fills, capped at the order size.
   */
  lemma DeliveriesConverge(w: World, slug: string, a: seq<Fill>, b: seq<Fill>)
    requires Keyed(w.rows) && News(w, a) == News(w, b) && Consistent(News(w, a)) && Roomy(w, slug, News(w, a))
    ensures !IngestAll(w, slug, a).raised && !IngestAll(w, slug, b).raised
    ensures After(w, slug, a) == After(w, slug, b)
    ensures Stores(w, After(w, slug, a).fills, slug, News(w, a))
    ensures After(w, slug, a).rows.Keys == w.rows.Keys
    ensures forall id | id in w.rows && (id.chain.slug != slug || Total(News(w, a), id) <= 0.0) :: After(w, slug, a).rows[id] == w.rows[id]
    ensures forall id | id in w.rows && id.chain.slug == slug && Total(News(w, a), id) > 0.0 ::
              var row, t := After(w, slug, a).rows[id], Total(News(w, a), id);
              && row.filled == (if w.rows[id].size <= w.rows[id].filled + t then w.rows[id].size else w.rows[id].filled + t)
              && (row.state.Filled? <==> row.filled >= row.size) && (row.state.Partial? <==> row.filled < row.size)
  {
    BatchOutcome(w, slug, a);
    BatchOutcome(w, slug, b);
    HoldsDetermines(w, After(w, slug, a), After(w, slug, b), slug, News(w, a));
  }

  function Flatten(histories: seq<seq<Fill>>): seq<Fill> {
    if histories == [] then [] else histories[0] + Flatten(histories[1..])
  }

  /** Polling once per history, in turn. */
  function AfterAll(w: World, slug: string, histories: seq<seq<Fill>>): World
    decreases |histories|
  {
    if histories == [] then w else AfterAll(After(w, slug, histories[0]), slug, histories[1..])
  }

  lemma {:induction false} IngestConcat(w: World, slug: string, a: seq<Fill>, b: seq<Fill>)
    ensures IngestAll(w, slug, a).raised ==> IngestAll(w, slug, a + b).raised
    ensures !IngestAll(w, slug, a).raised ==>
              && After(w, slug, a + b) == After(After(w, slug, a), slug, b)
              && IngestAll(w, slug, a + b).raised == IngestAll(After(w, slug, a), slug, b).raised
    decreases |a|
  {
    if a == [] {
      assert a + b == b;
    } else {
      assert (a + b)[1..] == a[1..] + b;
      if !IngestOne(w, slug, a[0]).raised {
        IngestConcat(ApplyAll(w, IngestOne(w, slug, a[0]).effects), slug, a[1..], b);
        IngestFirst(w, slug, a);
        IngestFirst(w, slug, a + b);
      }
    }
  }

  lemma {:induction false} AfterAllIsFlat(w: World, slug: string, histories: seq<seq<Fill>>)
    requires !IngestAll(w, slug, Flatten(histories)).raised
    ensures AfterAll(w, slug, histories) == After(w, slug, Flatten(histories))
    decreases |histories|
  {
    if histories != [] {
      IngestConcat(w, slug, histories[0], Flatten(histories[1..]));
      AfterAllIsFlat(After(w, slug, histories[0]), slug, histories[1..]);
    }
  }

  /** Any run of polls ends where one poll of the final history ends. */
  lemma PollsConverge(w: World, slug: string, histories: seq<seq<Fill>>, final: seq<Fill>)
    requires Keyed(w.rows) && News(w, Flatten(histories)) == News(w, final)
    requires Consistent(News(w, final)) && Roomy(w, slug, News(w, final))
    ensures AfterAll(w, slug, histories) == After(w, slug, final)
  {
    DeliveriesConverge(w, slug, Flatten(histories), final);
    AfterAllIsFlat(w, slug, histories);
  }

  lemma {:induction false} Listing(fs: set<Fill>) returns (batch: seq<Fill>)
    ensures forall f :: f in batch <==> f in fs
    decreases fs
  {
    if fs == {} {
      batch := [];
    } else {
      var f :| f in fs;
      batch := Listing(fs - {f});
      batch := batch + [f];
    }
  }

  /** A terminal row stays what it is through any batch. */
  lemma {:induction false} TerminalKept(w: World, slug: string, batch: seq<Fill>, id: OrderId)
    requires Keyed(w.rows) && id in w.rows && !IsLive(w.rows[id].state)
    ensures var w' := After(w, slug, batch); id in w'.rows && w'.rows[id] == w.rows[id]
    decreases |batch|
  {
    if batch != [] {
      IngestOneApplied(w, slug, batch[0]);
      if !IngestOne(w, slug, batch[0]).raised {
        TerminalKept(ApplyAll(w, IngestOne(w, slug, batch[0]).effects), slug, batch[1..], id);
        IngestFirst(w, slug, batch);
      }
    }
  }

  /** Delivered last, a fill without room is refused. */
  lemma NoRoomRaises(w: World, slug: string, others: seq<Fill>, f: Fill)
    requires var fs := News(w, others); Keyed(w.rows) && Consistent(fs) && Consistent(fs + {f}) && f !in others
    requires f.size > 0.0 && f.id !in w.fills && IsLinked(w.rows, slug, f)
    requires !HasRoom(w.rows[f.order], Total(News(w, others), f.order))
    ensures IngestAll(w, slug, others + [f]).raised
  {
    var fs := News(w, others);
    IngestConcat(w, slug, others, [f]);
    if !IngestAll(w, slug, others).raised {
      BatchOutcome(w, slug, others);
      var w1 := After(w, slug, others);
      TotalMonotone(fs, fs, f.order);
      if !IsLive(w.rows[f.order].state) {
        TerminalKept(w, slug, others, f.order);
      }
      assert IngestOne(w1, slug, [f][0]).raised;
    }
  }

  /** Some order of arrival raises when an order lacks room. */
  lemma CrowdedRaises(w: World, slug: string, fs: set<Fill>) returns (batch: seq<Fill>)
    requires Keyed(w.rows) && Consistent(fs) && !Roomy(w, slug, fs) && forall f | f in fs :: f.size > 0.0 && f.id !in w.fills
    ensures (forall f :: f in batch <==> f in fs) && IngestAll(w, slug, batch).raised
  {
    var f :| f in fs && IsLinked(w.rows, slug, f) && !HasRoom(w.rows[f.order], Total(fs, f.order) - f.size);
    var others := Listing(fs - {f});
    TotalSplit(fs, f, f.order);
    assert News(w, others) == fs - {f};
    assert fs - {f} + {f} == fs;
    NoRoomRaises(w, slug, others, f);
    batch := others + [f];
  }

  /** The room condition is exact: it fails exactly when some order of arrival raises. */
  lemma RoomyIffNeverRaises(w: World, slug: string, fs: set<Fill>)
    requires Keyed(w.rows) && Consistent(fs) && forall f | f in fs :: f.size > 0.0 && f.id !in w.fills
    ensures Roomy(w, slug, fs) <==> forall batch | (forall f :: f in batch <==> f in fs) :: !IngestAll(w, slug, batch).raised
  {
    if Roomy(w, slug, fs) {
      forall batch | forall f :: f in batch <==> f in fs
        ensures !IngestAll(w, slug, batch).raised
      {
        assert News(w, batch) == fs;
        BatchOutcome(w, slug, batch);
      }
    } else {
      var batch := CrowdedRaises(w, slug, fs);
      assert IngestAll(w, slug, batch).raised;
    }
  }

  /** A batch that holds a new fill of a terminal order comes to a refusal. */
  lemma {:induction false} TerminalRefuses(w: World, slug: string, batch: seq<Fill>, f: Fill)
    requires Keyed(w.rows) && IsLinked(w.rows, slug, f) && !IsLive(w.rows[f.order].state)
    requires f in News(w, batch) && Consistent(News(w, batch))
    ensures IngestAll(w, slug, batch).raised
    decreases |batch|
  {
    var s := IngestOne(w, slug, batch[0]);
    if !s.raised {
      var w1 := ApplyAll(w, s.effects);
      IngestOneApplied(w, slug, batch[0]);
      assert batch[0] in batch && batch == [batch[0]] + batch[1..];
      assert batch[0] in News(w, batch) ==> batch[0].id != f.id;
      assert News(w1, batch[1..]) <= News(w, batch);
      TerminalRefuses(w1, slug, batch[1..], f);
      IngestFirst(w, slug, batch);
    }
  }

  /**
   An order is closed before its new fills come in, and every other order they belong to has room and is
   as it was: the batch raises exactly when one of them is a fill of the closed order.
   */
  lemma {:induction false} ClosedRefuses(w: World, w1: World, slug: string, batch: seq<Fill>, id: OrderId)
    requires Keyed(w1.rows) && w1.fills == w.fills && Consistent(News(w, batch)) && Roomy(w, slug, News(w, batch))
    requires id in w1.rows && id.chain.slug == slug && !IsLive(w1.rows[id].state)
    requires forall f | f in News(w, batch) && f.order != id ::
               && (f.order in w1.rows <==> f.order in w.rows)
               && (f.order in w.rows ==> w1.rows[f.order] == w.rows[f.order])
    ensures IngestAll(w1, slug, batch).raised <==> exists f | f in News(w, batch) :: f.order == id
  {
    assert News(w1, batch) == News(w, batch);
    if f :| f in News(w, batch) && f.order == id {
      TerminalRefuses(w1, slug, batch, f);
    } else {
      BatchOutcome(w1, slug, batch);
    }
  }

  /** A pass so far and the rest of it make the whole pass. */
  ghost predicate ToCome(all: Result, done: seq<Effect>, accepted: seq<Fill>, rest: Result) {
    all.effects == done + rest.effects && all.accepted == accepted + rest.accepted && all.raised == rest.raised
  }

  lemma ToComeStep(all: Result, done: seq<Effect>, accepted: seq<Fill>, w: World, slug: string, batch: seq<Fill>)
    requires batch != [] && ToCome(all, done, accepted, IngestAll(w, slug, batch))
    ensures var s := IngestOne(w, slug, batch[0]);
            var first := if s.isNew then [Norm(w.rows, slug, batch[0])] else [];
            if s.raised then all == Result(done + s.effects, accepted + first, true)
            else ToCome(all, done + s.effects, accepted + first, IngestAll(ApplyAll(w, s.effects), slug, batch[1..]))
  {
    var s := IngestOne(w, slug, batch[0]);
    var first := if s.isNew then [Norm(w.rows, slug, batch[0])] else [];
    if !s.raised {
      var rest := IngestAll(ApplyAll(w, s.effects), slug, batch[1..]);
      Assoc(done, s.effects, rest.effects);
      Assoc(accepted, first, rest.accepted);
    }
  }

  // ── the imperative form ───────────────────────────────────────────────────

  class FillEngine {
    const backend: Backend

    constructor (backend: Backend)
      ensures this.backend == backend
    {
      this.backend := backend;
    }

    /** The market's orders as read once, at the start of a pass. */
    method Read(slug: string) returns (orders: map<OrderId, Order>)
      requires Keyed(backend.rows)
      ensures Mirrors(orders, backend.rows, slug) && forall id | id in orders :: fresh(orders[id])
    {
      var ids := backend.List(slug, false);
      orders := map[];
      for k := 0 to |ids|
        invariant forall id | id in orders :: fresh(orders[id]) && id in backend.rows && orders[id].id == id && orders[id].AsRow() == backend.rows[id]
        invariant forall id :: id in orders <==> id in ids[..k]
      {
        assert ids[k] in ids;
        var order := new Order(backend.rows[ids[k]]);
        assert ids[..k + 1] == ids[..k] + [ids[k]];
        orders := orders[ids[k] := order];
      }
      assert ids[..|ids|] == ids;
    }

    /** The objects in hand agree with the store, one for each row of the market. */
    ghost predicate Mirrors(orders: map<OrderId, Order>, rows: map<OrderId, Row>, slug: string)
      reads set id | id in orders :: orders[id]
    {
      && (forall id :: id in orders <==> id in rows && id.chain.slug == slug)
      && (forall id | id in orders :: orders[id].id == id && orders[id].AsRow() == rows[id])
    }

    /** One fill of a pass. */
    method IngestFill(orders: map<OrderId, Order>, slug: string, f: Fill) returns (isNew: bool, raised: bool, g: Fill)
      requires Keyed(backend.rows) && Mirrors(orders, backend.rows, slug)
      modifies backend, set id | id in orders :: orders[id]
      ensures var s := IngestOne(old(backend.State()), slug, f);
              backend.Did(s.effects) && isNew == s.isNew && raised == s.raised
      ensures g == Norm(old(backend.rows), slug, f) && Owned(old(backend.State()), slug, f, g)
      ensures Keyed(backend.rows) && Mirrors(orders, backend.rows, slug)
    {
      ghost var log, w := backend.journal, backend.State();
      isNew, raised, g := false, false, f;
      if f.order in orders { g := f.(engine := f.order.chain.engine); }
      if f.size <= 0.0 { return; }
      isNew := backend.SaveFill(g);
      if !isNew || f.order !in orders {
        ApplyAllOne(w, SaveFill(g));
        return;
      }
      var order := orders[f.order];
      raised := order.ApplyFill(f.size);
      if raised {
        ApplyAllOne(w, SaveFill(g));
        return;
      }
      backend.SaveOrder(order.AsRow());
      Two(log, w, SaveFill(g), SaveRow(order.AsRow()));
    }

    /** The whole batch, until the end or the first order that refuses its fill. */
    method Ingest(slug: string, batch: seq<Fill>) returns (accepted: seq<Fill>, raised: bool)
      requires Keyed(backend.rows)
      modifies backend
      ensures var r := IngestAll(old(backend.State()), slug, batch);
              backend.Did(r.effects) && accepted == r.accepted && raised == r.raised
    {
      ghost var log, w, done := backend.journal, backend.State(), [];
      ghost var all := IngestAll(w, slug, batch);
      var orders := Read(slug);
      accepted, raised := [], false;
      assert batch[0..] == batch;
      for k := 0 to |batch|
        invariant Keyed(backend.rows) && Mirrors(orders, backend.rows, slug)
        invariant forall id | id in orders :: fresh(orders[id])
        invariant backend.Since(log, w, done) && !raised
        invariant ToCome(all, done, accepted, IngestAll(backend.State(), slug, batch[k..]))
      {
        ghost var here := backend.State();
        ghost var s := IngestOne(here, slug, batch[k]);
        assert batch[k..][1..] == batch[k + 1..];
        ToComeStep(all, done, accepted, here, slug, batch[k..]);
        Then(log, w, done, s.effects);
        var isNew, refused, g := IngestFill(orders, slug, batch[k]);
        ghost var first := if s.isNew then [Norm(here.rows, slug, batch[k])] else [];
        ghost var next := accepted + first;
        if isNew { accepted := accepted + [g]; }
        assert accepted == next;
        done := done + s.effects;
        if refused {
          assert all == Result(done, accepted, true);
          return accepted, true;
        }
      }
      assert all.effects == done && all.accepted == accepted;
    }
  }
}
