/** Settling unknown orders against the venue's own list, and expiring rows that were never sent. */
module Reconcile {
  import opened Ids
  import opened Orders
  import opened Backend
  import opened Chains
  import opened Fills
  import Sweep
  import opened Wrappers

  /** The client id the venue shows: one of ours, or any other text. */
  datatype Client = Ours(id: OrderId) | Foreign(text: string)

  datatype VenueOrder = VenueOrder(venueId: string, client: Client, filled: real, resting: bool)

  /** The dictionary by client id keeps the last entry of a repeated id. */
  function Lookup(venue: seq<VenueOrder>, id: OrderId): Option<VenueOrder> {
    if venue == [] then None
    else
      var n := |venue| - 1;
      if venue[n].client == Ours(id) then Some(venue[n]) else Lookup(venue[..n], id)
  }

  function Resolved(row: Row, v: Option<VenueOrder>): Row {
    match v
    case None =>
      Moved(row, if row.filled >= row.size && row.size > 0.0 then Filled else Cancelled, "reconciled: absent from venue")
    case Some(o) =>
      var known := row.(venueId := if o.venueId != "" then o.venueId else row.venueId,
                        filled := if row.size <= o.filled then row.size else o.filled);
      if o.resting then Moved(known, if known.filled > 0.0 then Partial else Submitted, "reconciled: resting at venue")
      else Moved(known, if known.filled >= known.size then Filled else Cancelled, "reconciled: no longer resting")
  }

  /** Whether the venue's answer settles the order for good. */
  predicate Definite(v: Option<VenueOrder>) {
    v.None? || !v.value.resting
  }

  // ── one pass that rewrites some rows ──────────────────────────────────────

  /** What a pass does to a row it looks at: nothing, or one save. */
  type Rule = Row -> Option<Row>

  function Saved(r: Option<Row>): seq<Effect> {
    match r
    case Some(row) => [SaveRow(row)]
    case None => []
  }

  function SaveEach(w: World, ids: seq<OrderId>, rule: Rule): seq<Effect>
    requires forall id | id in ids :: id in w.rows
    decreases |ids|
  {
    if ids == [] then []
    else
      var n := |ids| - 1;
      SaveEach(w, ids[..n], rule) + Saved(rule(w.rows[ids[n]]))
  }

  /** Every row the rule rewrites, it rewrites along the transition table. */
  predicate Lawful(w: World, ids: seq<OrderId>, rule: Rule) {
    && (forall id | id in ids :: id in w.rows && (rule(w.rows[id]).Some? ==> Progress(w.rows[id], rule(w.rows[id]).value, false)))
    && NoRepeats(ids)
  }

  /** A pass without its last row is as lawful. */
  lemma LawfulInit(w: World, ids: seq<OrderId>, rule: Rule)
    requires ids != [] && Lawful(w, ids, rule)
    ensures Lawful(w, ids[..|ids| - 1], rule)
    ensures ids[|ids| - 1] !in ids[..|ids| - 1] && ids[|ids| - 1] in w.rows
  {
  }

  lemma {:induction false} SaveEachSpares(w: World, ids: seq<OrderId>, rule: Rule, id: OrderId)
    requires Keyed(w.rows) && Lawful(w, ids, rule) && id !in ids
    ensures Spares(SaveEach(w, ids, rule), id)
    decreases |ids|
  {
    if ids != [] {
      SaveEachSpares(w, ids[..|ids| - 1], rule, id);
    }
  }

  /** A save that follows effects which spared its row. */
  lemma SavedAfter(w: World, l: Limits, es: seq<Effect>, row: Row, r: Option<Row>)
    requires Inv(w, l) && Sound(w, l, es, false) && Spares(es, row.id)
    requires row.id in w.rows && w.rows[row.id] == row && (r.Some? ==> Progress(row, r.value, false))
    ensures Sound(w, l, es + Saved(r), false)
  {
    SparedRowKept(w, es, row.id);
    SoundConcat(w, l, es, Saved(r), false);
  }

  lemma {:induction false} SaveEachSound(w: World, l: Limits, ids: seq<OrderId>, rule: Rule)
    requires Inv(w, l) && Lawful(w, ids, rule)
    ensures Sound(w, l, SaveEach(w, ids, rule), false)
    decreases |ids|
  {
    if ids != [] {
      var n := |ids| - 1;
      LawfulInit(w, ids, rule);
      SaveEachSound(w, l, ids[..n], rule);
      SaveEachSpares(w, ids[..n], rule, ids[n]);
      assert RowOk(ids[n], w.rows[ids[n]]);
      SavedAfter(w, l, SaveEach(w, ids[..n], rule), w.rows[ids[n]], rule(w.rows[ids[n]]));
    }
  }

  /** One save, of a row on record. */
  lemma SavedLeaves(w: World, last: OrderId, r: Option<Row>, id: OrderId)
    requires last in w.rows && id in w.rows && (r.Some? ==> r.value.id == last && SameTerms(r.value, w.rows[last]))
    ensures var w' := ApplyAll(w, Saved(r));
            id in w'.rows && w'.rows[id] == if id == last && r.Some? then r.value else w.rows[id]
  {
    if r.Some? { ApplyAllOne(w, SaveRow(r.value)); }
  }

  lemma {:induction false} SaveEachLeaves(w: World, ids: seq<OrderId>, rule: Rule, id: OrderId)
    requires Keyed(w.rows) && Lawful(w, ids, rule) && id in w.rows
    ensures var w' := ApplyAll(w, SaveEach(w, ids, rule));
            && id in w'.rows
            && w'.rows[id] == if id in ids && rule(w.rows[id]).Some? then rule(w.rows[id]).value else w.rows[id]
    decreases |ids|
  {
    if ids != [] {
      var n := |ids| - 1;
      var es, r := SaveEach(w, ids[..n], rule), rule(w.rows[ids[n]]);
      assert ids == ids[..n] + [ids[n]];
      LawfulInit(w, ids, rule);
      SaveEachLeaves(w, ids[..n], rule, id);
      SaveEachLeaves(w, ids[..n], rule, ids[n]);
      SavedLeaves(ApplyAll(w, es), ids[n], r, id);
      ApplyAllConcat(w, es, Saved(r));
    }
  }

  // ── reconciliation ────────────────────────────────────────────────────────

  function ReconcileRule(engine: Option<string>, venue: seq<VenueOrder>): Rule {
    (row: Row) => if Sweep.InScope(row.id, engine) && row.state.Indeterminate? then Some(Resolved(row, Lookup(venue, row.id))) else None
  }

  /** What the operator is told of a venue order nobody has a row for. */
  datatype Label = ByClient(client: Client) | ByVenueId(text: string)

  function LabelOf(v: VenueOrder): Label {
    if v.client == Foreign("") then ByVenueId(v.venueId) else ByClient(v.client)
  }

  /** Venue orders without a local row, whichever engine that row would belong to. */
  function Orphans(known: set<OrderId>, venue: seq<VenueOrder>): seq<Label>
    decreases |venue|
  {
    if venue == [] then []
    else
      var n := |venue| - 1;
      Orphans(known, venue[..n])
      + if venue[n].client.Ours? && venue[n].client.id in known then [] else [LabelOf(venue[n])]
  }

  /** Which list of the report an order of the market goes to; None for a terminal or out-of-scope one. */
  datatype Verdict = ResolvedNow | StillLive

  function VerdictOn(row: Row, engine: Option<string>, venue: seq<VenueOrder>): Option<Verdict> {
    if !Sweep.InScope(row.id, engine) || IsTerminal(row.state) then None
    else if row.state.Indeterminate? && Definite(Lookup(venue, row.id)) then Some(ResolvedNow)
    else Some(StillLive)
  }

  function Reported(w: World, ids: seq<OrderId>, engine: Option<string>, venue: seq<VenueOrder>, verdict: Verdict): seq<OrderId>
    requires forall id | id in ids :: id in w.rows
    decreases |ids|
  {
    if ids == [] then []
    else
      var n := |ids| - 1;
      Reported(w, ids[..n], engine, venue, verdict)
      + if VerdictOn(w.rows[ids[n]], engine, venue) == Some(verdict) then [ids[n]] else []
  }

  lemma ReportedNext(w: World, ids: seq<OrderId>, k: nat, engine: Option<string>, venue: seq<VenueOrder>, verdict: Verdict)
    requires k < |ids| && forall id | id in ids :: id in w.rows
    ensures Reported(w, ids[..k + 1], engine, venue, verdict) ==
              Reported(w, ids[..k], engine, venue, verdict)
              + if VerdictOn(w.rows[ids[k]], engine, venue) == Some(verdict) then [ids[k]] else []
  {
    assert ids[..k + 1][..k] == ids[..k] && ids[k] in ids;
  }

  /** In the pass's scope: any engine's order, or that engine's. */
  predicate Concerns(id: OrderId, engine: Option<string>) {
    engine == None || engine == Some(id.chain.engine)
  }

  /** What the venue's list says of an unknown order: the row's state and filled size, from its last entry or from there being none. */
  predicate SettledBy(before: Row, after: Row, v: Option<VenueOrder>) {
    && after == before.(state := after.state, filled := after.filled, venueId := after.venueId, reason := after.reason)
    && match v
       case None =>
         && after.filled == before.filled && after.venueId == before.venueId
         && after.state == if 0.0 < before.size <= before.filled then Filled else Cancelled
       case Some(o) =>
         && after.filled == (if o.filled < before.size then o.filled else before.size)
         && after.venueId == (if o.venueId == "" then before.venueId else o.venueId)
         && after.state == if o.resting then (if after.filled > 0.0 then Partial else Submitted)
                           else if before.size <= o.filled then Filled else Cancelled
  }

  lemma ResolvedSettles(row: Row, v: Option<VenueOrder>)
    ensures SettledBy(row, Resolved(row, v), v)
  {
  }

  /** Settled for good: what was unknown and either gone from the list or no longer resting. Still live: every other live order. */
  lemma ReportedExactly(w: World, ids: seq<OrderId>, engine: Option<string>, venue: seq<VenueOrder>, id: OrderId)
    requires forall x | x in ids :: x in w.rows && w.rows[x].id == x
    ensures id in Reported(w, ids, engine, venue, ResolvedNow) <==>
              id in ids && Concerns(id, engine) && w.rows[id].state == Indeterminate
              && (Lookup(venue, id).None? || !Lookup(venue, id).value.resting)
    ensures id in Reported(w, ids, engine, venue, StillLive) <==>
              id in ids && Concerns(id, engine) && IsLive(w.rows[id].state)
              && (w.rows[id].state == Indeterminate ==> Lookup(venue, id).Some? && Lookup(venue, id).value.resting)
  {
    ReportedMembers(w, ids, engine, venue, ResolvedNow, id);
    ReportedMembers(w, ids, engine, venue, StillLive, id);
  }

  lemma {:induction false} ReportedMembers(w: World, ids: seq<OrderId>, engine: Option<string>, venue: seq<VenueOrder>, verdict: Verdict, id: OrderId)
    requires forall x | x in ids :: x in w.rows
    ensures id in Reported(w, ids, engine, venue, verdict) <==>
              id in ids && VerdictOn(w.rows[id], engine, venue) == Some(verdict)
    decreases |ids|
  {
    if ids != [] {
      var n := |ids| - 1;
      ReportedMembers(w, ids[..n], engine, venue, verdict, id);
      assert ids == ids[..n] + [ids[n]];
    }
  }

  /** Quantities the venue reports are not negative. */
  predicate Sane(venue: seq<VenueOrder>) {
    forall i | 0 <= i < |venue| :: venue[i].filled >= 0.0
  }

  /** The last entry with the id, or there is none. */
  lemma {:induction false} LookupFound(venue: seq<VenueOrder>, id: OrderId) returns (k: int)
    ensures match Lookup(venue, id)
            case Some(o) => 0 <= k < |venue| && venue[k] == o && o.client == Ours(id) && forall j | k < j < |venue| :: venue[j].client != Ours(id)
            case None => forall j | 0 <= j < |venue| :: venue[j].client != Ours(id)
    decreases |venue|
  {
    k := 0;
    if venue != [] {
      var n := |venue| - 1;
      k := LookupFound(venue[..n], id);
      if venue[n].client == Ours(id) { k := n; }
    }
  }

  lemma ResolvedProgress(row: Row, v: Option<VenueOrder>)
    requires row.state.Indeterminate? && 0.0 <= row.filled <= row.size && (v.Some? ==> v.value.filled >= 0.0)
    ensures Progress(row, Resolved(row, v), false)
  {
  }

  lemma ReconcileLawful(w: World, l: Limits, slug: string, ids: seq<OrderId>, engine: Option<string>, venue: seq<VenueOrder>)
    requires Inv(w, l) && Enumerates(ids, IdsOf(w.rows, slug, false)) && Sane(venue)
    ensures Lawful(w, ids, ReconcileRule(engine, venue))
  {
    forall id | id in ids
      ensures id in w.rows
      ensures ReconcileRule(engine, venue)(w.rows[id]).Some? ==>
                Progress(w.rows[id], ReconcileRule(engine, venue)(w.rows[id]).value, false)
    {
      assert id in IdsOf(w.rows, slug, false);
      assert RowOk(id, w.rows[id]);
      var _ := LookupFound(venue, id);
      if w.rows[id].state.Indeterminate? { ResolvedProgress(w.rows[id], Lookup(venue, id)); }
    }
  }

  /** What the pass leaves of one order. */
  lemma ReconcileLeaves(w: World, l: Limits, slug: string, ids: seq<OrderId>, engine: Option<string>, venue: seq<VenueOrder>, id: OrderId)
    requires Inv(w, l) && Enumerates(ids, IdsOf(w.rows, slug, false)) && id in w.rows
    requires Lawful(w, ids, ReconcileRule(engine, venue))
    ensures var w' := ApplyAll(w, SaveEach(w, ids, ReconcileRule(engine, venue)));
            && id in w'.rows
            && w'.rows[id] ==
                 if id.chain.slug == slug && Sweep.InScope(id, engine) && w.rows[id].state.Indeterminate?
                 then Resolved(w.rows[id], Lookup(venue, id)) else w.rows[id]
    ensures id in Reported(w, ids, engine, venue, StillLive) <==>
              id.chain.slug == slug && VerdictOn(w.rows[id], engine, venue) == Some(StillLive)
  {
    assert RowOk(id, w.rows[id]);
    assert id in ids <==> id in IdsOf(w.rows, slug, false);
    SaveEachLeaves(w, ids, ReconcileRule(engine, venue), id);
    ReportedMembers(w, ids, engine, venue, StillLive, id);
  }

  /** An unknown row is settled for good or kept live exactly as the verdict on it says. */
  lemma VerdictTells(row: Row, engine: Option<string>, venue: seq<VenueOrder>)
    requires Sweep.InScope(row.id, engine) && row.state.Indeterminate?
    ensures var after := Resolved(row, Lookup(venue, row.id));
            !after.state.Indeterminate? && (IsLive(after.state) <==> VerdictOn(row, engine, venue) == Some(StillLive))
  {
  }

  /**
   Reconciliation is safe whatever the venue lists, and it leaves no order in scope unknown: each is
   settled by what the list says of it, and an in-scope order of the market is live afterwards exactly
   when it is reported so. An order out of scope, and one that was not unknown, is as it was.
   */
  lemma ReconcileSettles(w: World, l: Limits, slug: string, ids: seq<OrderId>, engine: Option<string>, venue: seq<VenueOrder>, id: OrderId)
    requires Inv(w, l) && Enumerates(ids, IdsOf(w.rows, slug, false)) && Sane(venue) && id in w.rows
    ensures Lawful(w, ids, ReconcileRule(engine, venue))
    ensures Sound(w, l, SaveEach(w, ids, ReconcileRule(engine, venue)), false)
    ensures var w' := ApplyAll(w, SaveEach(w, ids, ReconcileRule(engine, venue)));
            && id in w'.rows
            && (id.chain.slug == slug && Concerns(id, engine) ==>
                  && !w'.rows[id].state.Indeterminate?
                  && (IsLive(w'.rows[id].state) <==> id in Reported(w, ids, engine, venue, StillLive)))
            && if id.chain.slug == slug && Concerns(id, engine) && w.rows[id].state.Indeterminate?
               then SettledBy(w.rows[id], w'.rows[id], Lookup(venue, id)) else w'.rows[id] == w.rows[id]
  {
    ReconcileLawful(w, l, slug, ids, engine, venue);
    SaveEachSound(w, l, ids, ReconcileRule(engine, venue));
    ReconcileLeaves(w, l, slug, ids, engine, venue, id);
    assert RowOk(id, w.rows[id]);
    ResolvedSettles(w.rows[id], Lookup(venue, id));
    if Concerns(id, engine) && w.rows[id].state.Indeterminate? { VerdictTells(w.rows[id], engine, venue); }
  }

  /** A venue order is an orphan unless it carries the id of one of the market's rows. */
  predicate IsOrphan(known: set<OrderId>, v: VenueOrder) {
    match v.client
    case Ours(id) => id !in known
    case Foreign(_) => true
  }

  /** An orphan is reported by the client id the venue shows, or by the venue's own id where it shows none. */
  predicate Labels(told: Label, v: VenueOrder) {
    match v.client
    case Ours(id) => told == ByClient(Ours(id))
    case Foreign(text) => if text == "" then told == ByVenueId(v.venueId) else told == ByClient(Foreign(text))
  }

  /** The venue orders that are orphans, in the venue's order. */
  function OrphansAmong(known: set<OrderId>, venue: seq<VenueOrder>): seq<VenueOrder> {
    if venue == [] then []
    else (if IsOrphan(known, venue[0]) then [venue[0]] else []) + OrphansAmong(known, venue[1..])
  }

  lemma {:induction false} OrphansLast(known: set<OrderId>, venue: seq<VenueOrder>, v: VenueOrder)
    ensures OrphansAmong(known, venue + [v]) == OrphansAmong(known, venue) + if IsOrphan(known, v) then [v] else []
    decreases |venue|
  {
    if venue == [] {
      assert [] + [v] == [v] && [v][1..] == [];
    } else {
      assert (venue + [v])[1..] == venue[1..] + [v];
      OrphansLast(known, venue[1..], v);
    }
  }

  /** The report names every orphan, one of a foreign system included, each once, in the venue's order, and nothing else. */
  lemma {:induction false} OrphansExactly(known: set<OrderId>, venue: seq<VenueOrder>)
    ensures |Orphans(known, venue)| == |OrphansAmong(known, venue)|
    ensures forall k | 0 <= k < |Orphans(known, venue)| :: Labels(Orphans(known, venue)[k], OrphansAmong(known, venue)[k])
    decreases |venue|
  {
    if venue != [] {
      var n := |venue| - 1;
      assert venue == venue[..n] + [venue[n]];
      OrphansExactly(known, venue[..n]);
      OrphansLast(known, venue[..n], venue[n]);
    }
  }

  // ── rows a dead process wrote and never sent ──────────────────────────────

  function ExpireRule(): Rule {
    (row: Row) => if row.state.Pending? then Some(Moved(row, Expired, "unsubmitted at restart")) else None
  }

  lemma ExpireLawful(w: World, l: Limits, slug: string, ids: seq<OrderId>)
    requires Inv(w, l) && Enumerates(ids, IdsOf(w.rows, slug, false))
    ensures Lawful(w, ids, ExpireRule())
  {
    forall id | id in ids
      ensures id in w.rows && RowOk(id, w.rows[id])
    {
      assert id in IdsOf(w.rows, slug, false);
    }
  }

  /** Afterwards no order of the market is PENDING, and every order that was not is as it was. */
  lemma ExpireSettles(w: World, l: Limits, slug: string, ids: seq<OrderId>)
    requires Inv(w, l) && Enumerates(ids, IdsOf(w.rows, slug, false))
    ensures Lawful(w, ids, ExpireRule())
    ensures var es := SaveEach(w, ids, ExpireRule());
            var w' := ApplyAll(w, es);
            && Sound(w, l, es, false)
            && (forall id | id in w.rows ::
                  && id in w'.rows
                  && (id.chain.slug == slug ==> !w'.rows[id].state.Pending?)
                  && (id.chain.slug != slug || !w.rows[id].state.Pending? ==> w'.rows[id] == w.rows[id]))
  {
    ExpireLawful(w, l, slug, ids);
    SaveEachSound(w, l, ids, ExpireRule());
    forall id | id in w.rows
      ensures var w' := ApplyAll(w, SaveEach(w, ids, ExpireRule()));
              && id in w'.rows
              && (id.chain.slug == slug ==> !w'.rows[id].state.Pending?)
              && (id.chain.slug != slug || !w.rows[id].state.Pending? ==> w'.rows[id] == w.rows[id])
    {
      assert id in ids <==> id in IdsOf(w.rows, slug, false);
      SaveEachLeaves(w, ids, ExpireRule(), id);
    }
  }

  // ── fills and reconciliation ──────────────────────────────────────────────

  /** One order's row: the venue's figure `filled + t` reached once by the fills `t`, and passed by adding them to it again. */
  lemma ToppedTwice(row: Row, t: real, v: VenueOrder)
    requires 0.0 <= row.filled && 0.0 <= t && v.resting && v.filled == row.filled + t <= row.size
    ensures Topped(row, t).filled == v.filled
    ensures var twice := Topped(Resolved(row, Some(v)), t);
            && (twice.filled == v.filled <==> t == 0.0 || v.filled == row.size)
            && (v.filled < row.size ==> (twice.state.Filled? <==> t > 0.0 && v.filled + t >= row.size))
  {
  }

  /** What a roomy batch leaves of one row. */
  lemma RowAfterBatch(w: World, slug: string, batch: seq<Fill>, id: OrderId)
    requires Keyed(w.rows) && Consistent(News(w, batch)) && Roomy(w, slug, News(w, batch)) && id in w.rows && id.chain.slug == slug
    ensures id in After(w, slug, batch).rows && After(w, slug, batch).rows[id] == Topped(w.rows[id], Total(News(w, batch), id))
  {
    BatchOutcome(w, slug, batch);
  }

  /**
   The venue's figure already counts fills not yet ingested. Ingested first, they bring the row to
   that figure; ingested after a reconcile they are added to it again, and the row is right only if
   there were none or it is full anyway. It turns FILLED with quantity open at the venue exactly when
   counting them twice reaches its size.
   */
  lemma FillsBeforeReconcile(w: World, slug: string, batch: seq<Fill>, id: OrderId, v: VenueOrder)
    requires Keyed(w.rows) && Consistent(News(w, batch)) && id in w.rows && id.chain.slug == slug
    requires v.resting && 0.0 <= w.rows[id].filled && w.rows[id].state.Indeterminate?
    requires v.filled == w.rows[id].filled + Total(News(w, batch), id) <= w.rows[id].size
    requires Roomy(w, slug, News(w, batch))
    requires Roomy(w.(rows := w.rows[id := Resolved(w.rows[id], Some(v))]), slug, News(w, batch))
    ensures id in After(w, slug, batch).rows && After(w, slug, batch).rows[id].filled == v.filled
    ensures var w1 := w.(rows := w.rows[id := Resolved(w.rows[id], Some(v))]);
            && id in After(w1, slug, batch).rows
            && (After(w1, slug, batch).rows[id].filled == v.filled <==>
                  Total(News(w, batch), id) == 0.0 || v.filled == w.rows[id].size)
            && (v.filled < w.rows[id].size ==>
                  (After(w1, slug, batch).rows[id].state.Filled? <==>
                     Total(News(w, batch), id) > 0.0 && v.filled + Total(News(w, batch), id) >= w.rows[id].size))
  {
    var w1 := w.(rows := w.rows[id := Resolved(w.rows[id], Some(v))]);
    assert News(w1, batch) == News(w, batch);
    TotalMonotone(News(w, batch), News(w, batch), id);
    RowAfterBatch(w, slug, batch, id);
    RowAfterBatch(w1, slug, batch, id);
    ToppedTwice(w.rows[id], Total(News(w, batch), id), v);
  }

  /**
   When the venue no longer shows the order resting, reconciliation closes it, and fills ingested only
   then are refused: the batch raises exactly when it brings a new fill of that order.
   */
  lemma FillsAfterClosing(w: World, slug: string, batch: seq<Fill>, id: OrderId, v: Option<VenueOrder>)
    requires Keyed(w.rows) && Consistent(News(w, batch)) && Roomy(w, slug, News(w, batch))
    requires id in w.rows && id.chain.slug == slug && Definite(v)
    ensures var w1 := w.(rows := w.rows[id := Resolved(w.rows[id], v)]);
            IngestAll(w1, slug, batch).raised <==> exists f | f in News(w, batch) :: f.order == id
  {
    ClosedRefuses(w, w.(rows := w.rows[id := Resolved(w.rows[id], v)]), slug, batch, id);
  }

  // ── the imperative form ───────────────────────────────────────────────────

  class Reconciler {
    const backend: Backend

    constructor (backend: Backend)
      ensures this.backend == backend
    {
      this.backend := backend;
    }

    /** The dictionary, built by overwriting. */
    method ByClientId(venue: seq<VenueOrder>) returns (byClient: map<Client, VenueOrder>)
      ensures forall id :: Lookup(venue, id) == if Ours(id) in byClient then Some(byClient[Ours(id)]) else None
    {
      byClient := map[];
      assert venue[..0] == [];
      for k := 0 to |venue|
        invariant forall id :: Lookup(venue[..k], id) == if Ours(id) in byClient then Some(byClient[Ours(id)]) else None
      {
        assert venue[..k + 1][..k] == venue[..k];
        byClient := byClient[venue[k].client := venue[k]];
      }
      assert venue[..|venue|] == venue;
    }

    method Resolve(order: Order, v: Option<VenueOrder>) returns (settled: bool)
      requires order.state.Indeterminate? && (v.Some? ==> v.value.filled >= 0.0)
      modifies backend, order
      ensures order.AsRow() == Resolved(old(order.AsRow()), v)
      ensures backend.DidOne(SaveRow(order.AsRow()))
      ensures settled == Definite(v)
    {
      var raised: bool;
      if v.None? {
        raised := order.Transition(if order.filled >= order.size && order.size > 0.0 then Filled else Cancelled, "reconciled: absent from venue");
        assert !raised;
        backend.SaveOrder(order.AsRow());
        return true;
      }
      if v.value.venueId != "" { order.SetVenueId(v.value.venueId); }
      order.filled := if order.size <= v.value.filled then order.size else v.value.filled;
      if !v.value.resting {
        raised := order.Transition(if order.filled >= order.size then Filled else Cancelled, "reconciled: no longer resting");
        assert !raised;
        backend.SaveOrder(order.AsRow());
        return true;
      }
      raised := order.Transition(if order.filled > 0.0 then Partial else Submitted, "reconciled: resting at venue");
      assert !raised;
      backend.SaveOrder(order.AsRow());
      return false;
    }

    /** One local row: out of scope and terminal rows are passed over, unknown ones resolved. */
    method Visit(row: Row, engine: Option<string>, byClient: map<Client, VenueOrder>, ghost venue: seq<VenueOrder>) returns (verdict: Option<Verdict>)
      requires Sane(venue) && Lookup(venue, row.id) == if Ours(row.id) in byClient then Some(byClient[Ours(row.id)]) else None
      modifies backend
      ensures backend.Did(Saved(ReconcileRule(engine, venue)(row)))
      ensures verdict == VerdictOn(row, engine, venue)
    {
      if engine.Some? && row.id.chain.engine != engine.value { return None; }
      if row.state != Indeterminate { return if IsLive(row.state) then Some(StillLive) else None; }
      var _ := LookupFound(venue, row.id);
      ghost var w := backend.State();
      var order := new Order(row);
      var settled := Resolve(order, if Ours(row.id) in byClient then Some(byClient[Ours(row.id)]) else None);
      ApplyAllOne(w, SaveRow(order.AsRow()));
      return Some(if settled then ResolvedNow else StillLive);
    }

    method VisitNext(row: Row, ids: seq<OrderId>, k: nat, engine: Option<string>, byClient: map<Client, VenueOrder>,
                     ghost venue: seq<VenueOrder>, ghost log: seq<Effect>, ghost w: World) returns (verdict: Option<Verdict>)
      requires k < |ids| && (forall id | id in ids :: id in w.rows) && row == w.rows[ids[k]]
      requires Sane(venue) && Lookup(venue, row.id) == if Ours(row.id) in byClient then Some(byClient[Ours(row.id)]) else None
      requires backend.Since(log, w, SaveEach(w, ids[..k], ReconcileRule(engine, venue)))
      modifies backend
      ensures backend.Since(log, w, SaveEach(w, ids[..k + 1], ReconcileRule(engine, venue)))
      ensures verdict == VerdictOn(row, engine, venue)
    {
      assert ids[..k + 1][..k] == ids[..k];
      Then(log, w, SaveEach(w, ids[..k], ReconcileRule(engine, venue)), Saved(ReconcileRule(engine, venue)(row)));
      verdict := Visit(row, engine, byClient, venue);
    }

    method Reconcile(slug: string, engine: Option<string>, venue: seq<VenueOrder>)
      returns (resolved: seq<OrderId>, live: seq<OrderId>, orphans: seq<Label>, ghost ids: seq<OrderId>)
      requires Keyed(backend.rows) && Sane(venue)
      modifies backend
      ensures Enumerates(ids, IdsOf(old(backend.rows), slug, false))
      ensures backend.Did(SaveEach(old(backend.State()), ids, ReconcileRule(engine, venue)))
      ensures resolved == Reported(old(backend.State()), ids, engine, venue, ResolvedNow)
      ensures live == Reported(old(backend.State()), ids, engine, venue, StillLive)
      ensures orphans == Orphans(IdsOf(old(backend.rows), slug, false), venue)
    {
      ghost var log, w := backend.journal, backend.State();
      var byClient := ByClientId(venue);
      var listed := backend.List(slug, false);
      ids := listed;
      var read := backend.rows;
      resolved, live := [], [];
      assert forall id | id in listed :: id in w.rows && w.rows[id].id == id;
      assert listed[..0] == [];
      for k := 0 to |listed|
        invariant backend.Since(log, w, SaveEach(w, listed[..k], ReconcileRule(engine, venue)))
        invariant resolved == Reported(w, listed[..k], engine, venue, ResolvedNow)
        invariant live == Reported(w, listed[..k], engine, venue, StillLive)
      {
        assert listed[k] in listed;
        ReportedNext(w, listed, k, engine, venue, ResolvedNow);
        ReportedNext(w, listed, k, engine, venue, StillLive);
        var verdict := VisitNext(read[listed[k]], listed, k, engine, byClient, venue, log, w);
        if verdict == Some(ResolvedNow) { resolved := resolved + [listed[k]]; }
        if verdict == Some(StillLive) { live := live + [listed[k]]; }
      }
      assert listed[..|listed|] == listed;
      assert (set id | id in listed) == IdsOf(w.rows, slug, false);
      orphans := FindOrphans(listed, venue);
    }

    method FindOrphans(ids: seq<OrderId>, venue: seq<VenueOrder>) returns (orphans: seq<Label>)
      ensures orphans == Orphans((set id | id in ids), venue)
    {
      var known := set id | id in ids;
      orphans := [];
      assert venue[..0] == [];
      for k := 0 to |venue|
        invariant orphans == Orphans(known, venue[..k])
      {
        assert venue[..k + 1][..k] == venue[..k];
        if !(venue[k].client.Ours? && venue[k].client.id in known) { orphans := orphans + [LabelOf(venue[k])]; }
      }
      assert venue[..|venue|] == venue;
    }

    method ExpireNext(row: Row, ids: seq<OrderId>, k: nat, ghost log: seq<Effect>, ghost w: World) returns (expired: bool)
      requires k < |ids| && (forall id | id in ids :: id in w.rows) && row == w.rows[ids[k]]
      requires backend.Since(log, w, SaveEach(w, ids[..k], ExpireRule()))
      modifies backend
      ensures backend.Since(log, w, SaveEach(w, ids[..k + 1], ExpireRule())) && expired == row.state.Pending?
    {
      assert ids[..k + 1][..k] == ids[..k];
      ghost var done := SaveEach(w, ids[..k], ExpireRule());
      if row.state != Pending {
        assert done + [] == done;
        return false;
      }
      var order := new Order(row);
      var raised := order.Transition(Expired, "unsubmitted at restart");
      assert !raised;
      ThenOne(log, w, done, SaveRow(order.AsRow()));
      backend.SaveOrder(order.AsRow());
      return true;
    }

    /** Recovery's step for one market. */
    method ExpirePending(slug: string) returns (expired: nat, ghost ids: seq<OrderId>)
      requires Keyed(backend.rows)
      modifies backend
      ensures Enumerates(ids, IdsOf(old(backend.rows), slug, false))
      ensures backend.Did(SaveEach(old(backend.State()), ids, ExpireRule()))
      ensures expired == |SaveEach(old(backend.State()), ids, ExpireRule())|
    {
      ghost var log, w := backend.journal, backend.State();
      var listed := backend.List(slug, false);
      ids := listed;
      var read := backend.rows;
      expired := 0;
      assert forall id | id in listed :: id in w.rows;
      assert listed[..0] == [];
      for k := 0 to |listed|
        invariant backend.Since(log, w, SaveEach(w, listed[..k], ExpireRule()))
        invariant expired == |SaveEach(w, listed[..k], ExpireRule())|
      {
        assert listed[k] in listed && listed[..k + 1][..k] == listed[..k];
        var done := ExpireNext(read[listed[k]], listed, k, log, w);
        if done { expired := expired + 1; }
      }
      assert listed[..|listed|] == listed;
    }
  }
}
