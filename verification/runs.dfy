/** Whole runs of every operation, against any venue answers, with a crash allowed after any effect. */
module Runs {
  import opened Ids
  import opened Orders
  import opened Backend
  import opened Chains
  import opened Submit
  import opened Reprice
  import Sweep
  import Fills
  import opened Reconcile
  import opened Wrappers

  datatype Event =
    | Submission(desk: Desk, intent: Intent, count: int, active: bool, answers: nat -> Answers)
    | RepricePass(slug: string, engine: string, ids: seq<OrderId>, venue: OrderId -> Venue)
    | SweepPass(slug: string, ids: seq<OrderId>, scope: Option<string>, replies: Sweep.Replies)
    | FillBatch(slug: string, batch: seq<Fill>)
    | Reconciliation(slug: string, ids: seq<OrderId>, scope: Option<string>, listing: seq<VenueOrder>)
    | Expiry(slug: string, ids: seq<OrderId>)

  /** An event, run to its end or cut short by a crash after some of its effects. */
  datatype Turn = Turn(event: Event, cut: Option<nat>)

  /**
   The world, the repricer's counters, and two things no code keeps: how many passes each order has
   rested through, and which orders inherited a spent counter because their placement was not acknowledged.
   */
  datatype State = State(world: World, passes: map<ChainKey, nat>, rested: map<OrderId, nat>, inherited: set<OrderId>)

  datatype Config = Config(limits: Limits, patience: nat)

  /** What the code reads before it acts: the store's listings. */
  ghost predicate Enabled(s: State, c: Config, e: Event) {
    match e
    case RepricePass(slug, engine, ids, _) => Enumerates(ids, OpenIds(s.world, c.limits, slug, engine))
    case SweepPass(slug, ids, _, _) => Enumerates(ids, IdsOf(s.world.rows, slug, true))
    case Reconciliation(slug, ids, _, listing) => Enumerates(ids, IdsOf(s.world.rows, slug, false)) && Sane(listing)
    case Expiry(slug, ids) => Enumerates(ids, IdsOf(s.world.rows, slug, false))
    case _ => true
  }

  predicate Listed(s: State, e: Event) {
    match e
    case RepricePass(_, _, ids, _) => forall id | id in ids :: id in s.world.rows
    case SweepPass(_, ids, _, _) => forall id | id in ids :: id in s.world.rows
    case Reconciliation(_, ids, _, _) => forall id | id in ids :: id in s.world.rows
    case Expiry(_, ids) => forall id | id in ids :: id in s.world.rows
    case _ => true
  }

  function EffectsOf(s: State, c: Config, e: Event): seq<Effect>
    requires Listed(s, e)
  {
    match e
    case Submission(desk, intent, count, active, answers) =>
      (match SubmitEffects(s.world, desk, intent, count, active, answers) case Ok(es) => es case Err(_) => [])
    case RepricePass(_, _, ids, venue) => RepriceAll(s.world, c.limits, c.patience, s.passes, ids, venue).0
    case SweepPass(_, ids, scope, replies) => Sweep.SweepEffects(s.world, ids, scope, replies)
    case FillBatch(slug, batch) => Fills.IngestAll(s.world, slug, batch).effects
    case Reconciliation(_, ids, scope, listing) => SaveEach(s.world, ids, ReconcileRule(scope, listing))
    case Expiry(_, ids) => SaveEach(s.world, ids, ExpireRule())
  }

  /** Only a landing fill may leave the transition table. */
  predicate ByFill(e: Event) {
    e.FillBatch?
  }

  /** Every event is sound: each of its effects is good where it happens. */
  lemma EventSound(s: State, c: Config, e: Event)
    requires Inv(s.world, c.limits) && Enabled(s, c, e)
    ensures Listed(s, e) && Sound(s.world, c.limits, EffectsOf(s, c, e), ByFill(e))
  {
    var w, l := s.world, c.limits;
    match e
    case Submission(desk, intent, count, active, answers) =>
      if SubmitEffects(w, desk, intent, count, active, answers).Ok? {
        SubmitSound(w, l, desk, intent, count, answers);
      }
    case RepricePass(slug, engine, ids, venue) =>
      OpenOrdersAreApart(w, l, slug, engine, ids);
      RepriceAllSound(w, l, c.patience, s.passes, ids, venue);
    case SweepPass(slug, ids, scope, replies) =>
      assert forall id | id in ids :: id in IdsOf(w.rows, slug, true);
      Sweep.SweepSound(w, l, ids, scope, replies);
    case FillBatch(slug, batch) =>
      Fills.IngestSound(w, l, slug, batch);
    case Reconciliation(slug, ids, scope, listing) =>
      ReconcileLawful(w, l, slug, ids, scope, listing);
      SaveEachSound(w, l, ids, ReconcileRule(scope, listing));
    case Expiry(slug, ids) =>
      ExpireLawful(w, l, slug, ids);
      SaveEachSound(w, l, ids, ExpireRule());
  }

  // ── how long an order has rested ──────────────────────────────────────────

  function Rested(rested: map<OrderId, nat>, id: OrderId): nat {
    if id in rested then rested[id] else 0
  }

  function RestedAfter(rested: map<OrderId, nat>, row: Row): map<OrderId, nat> {
    if Considered(row) then rested[row.id := Rested(rested, row.id) + 1] else rested
  }

  function InheritedAfter(c: Config, passes: map<ChainKey, nat>, inherited: set<OrderId>, row: Row, v: Venue): set<OrderId> {
    if !Considered(row) then inherited - {row.id}
    else if RepriceOutcome(c.limits, c.patience, passes, row, v).row.id != row.id && !v.place.Accepted? then inherited + {row.id.Next()}
    else inherited
  }

  function HistoryAfter(s: State, c: Config, ids: seq<OrderId>, v: OrderId -> Venue): (map<OrderId, nat>, set<OrderId>)
    requires forall id | id in ids :: id in s.world.rows
    decreases |ids|
  {
    if ids == [] then (s.rested, s.inherited)
    else
      var n := |ids| - 1;
      var before := HistoryAfter(s, c, ids[..n], v);
      var row := s.world.rows[ids[n]];
      var passes := RepriceAll(s.world, c.limits, c.patience, s.passes, ids[..n], v).1;
      (RestedAfter(before.0, row), InheritedAfter(c, passes, before.1, row, v(ids[n])))
  }

  function Step(s: State, c: Config, t: Turn): State
    requires Listed(s, t.event)
  {
    var es := EffectsOf(s, c, t.event);
    if t.cut.Some? && t.cut.value < |es| then State(ApplyAll(s.world, es[..t.cut.value]), map[], s.rested, {})
    else
      var w := ApplyAll(s.world, es);
      match t.event
      case RepricePass(_, _, ids, v) =>
        var h := HistoryAfter(s, c, ids, v);
        State(w, RepriceAll(s.world, c.limits, c.patience, s.passes, ids, v).1, h.0, h.1)
      case _ => s.(world := w)
  }

  /** A counter never exceeds what its live order has rested through, unless the order inherited it spent. */
  ghost predicate Counted(w: World, patience: nat, passes: map<ChainKey, nat>, rested: map<OrderId, nat>, inherited: set<OrderId>) {
    && (forall k | k in passes :: OrderId(k, 0) in w.rows)
    && (forall id | id in inherited :: id in w.rows)
    && (forall id | id in w.rows && IsLive(w.rows[id].state) ::
          WellCounted(patience, passes, rested, inherited, id))
  }

  /** Effects that create no order but a chain's first. */
  predicate FirstOnly(rows: map<OrderId, Row>, es: seq<Effect>) {
    forall i | 0 <= i < |es| :: es[i].SaveRow? ==> es[i].row.id in rows || es[i].row.id.generation == 0
  }

  lemma {:induction false} FirstOnlyRows(w: World, es: seq<Effect>, id: OrderId)
    requires FirstOnly(w.rows, es) && id in ApplyAll(w, es).rows && id !in w.rows
    ensures id.generation == 0
    decreases |es|
  {
    if es != [] {
      if id !in Apply(w, es[0]).rows {
        FirstOnlyRows(Apply(w, es[0]), es[1..], id);
      }
    }
  }

  /** An event that creates no successor leaves the counts in order. */
  lemma CountedKept(w: World, w': World, patience: nat, passes: map<ChainKey, nat>, rested: map<OrderId, nat>, inherited: set<OrderId>)
    requires Counted(w, patience, passes, rested, inherited) && Evolves(w, w')
    requires forall id | id in w'.rows && id !in w.rows :: id.generation == 0
    ensures Counted(w', patience, passes, rested, inherited)
  {
    forall id | id in w'.rows && IsLive(w'.rows[id].state)
      ensures WellCounted(patience, passes, rested, inherited, id)
    {
      if id !in w.rows {
        assert id == OrderId(id.chain, 0);
      }
    }
  }

  ghost predicate WellCounted(patience: nat, passes: map<ChainKey, nat>, rested: map<OrderId, nat>, inherited: set<OrderId>, id: OrderId) {
    if id in inherited then Passes(passes, id.chain) > patience else Passes(passes, id.chain) <= Rested(rested, id)
  }

  /** The order a call hands back is well counted when the order it was given is. */
  lemma OutcomeCounts(c: Config, passes: map<ChainKey, nat>, rested: map<OrderId, nat>, inherited: set<OrderId>, row: Row, v: Venue)
    requires WellCounted(c.patience, passes, rested, inherited, row.id) && row.id.Next() !in inherited
    ensures var o := RepriceOutcome(c.limits, c.patience, passes, row, v);
            WellCounted(c.patience, o.passes, RestedAfter(rested, row), InheritedAfter(c, passes, inherited, row, v), o.row.id)
            || !IsLive(o.row.state)
  {
  }

  /** A call leaves the counts of every other chain alone. */
  lemma OutcomeElsewhere(c: Config, passes: map<ChainKey, nat>, rested: map<OrderId, nat>, inherited: set<OrderId>, row: Row, v: Venue, id: OrderId)
    requires id.chain != row.id.chain
    ensures var o := RepriceOutcome(c.limits, c.patience, passes, row, v);
            && Passes(o.passes, id.chain) == Passes(passes, id.chain)
            && Rested(RestedAfter(rested, row), id) == Rested(rested, id)
            && (id in InheritedAfter(c, passes, inherited, row, v) <==> id in inherited)
  {
  }

  lemma OutcomeNames(c: Config, passes: map<ChainKey, nat>, inherited: set<OrderId>, row: Row, v: Venue)
    ensures var o := RepriceOutcome(c.limits, c.patience, passes, row, v);
            && o.passes.Keys <= passes.Keys + {row.id.chain}
            && InheritedAfter(c, passes, inherited, row, v) <= inherited + {o.row.id}
  {
  }

  /** One call of the repricer keeps the counts in order. */
  lemma RepriceCounted(w: World, c: Config, passes: map<ChainKey, nat>, rested: map<OrderId, nat>, inherited: set<OrderId>, row: Row, v: Venue)
    requires Inv(w, c.limits) && row.id in w.rows && w.rows[row.id] == row && IsLive(row.state)
    requires Counted(w, c.patience, passes, rested, inherited)
    ensures var o := RepriceOutcome(c.limits, c.patience, passes, row, v);
            Counted(ApplyAll(w, o.effects), c.patience, o.passes, RestedAfter(rested, row), InheritedAfter(c, passes, inherited, row, v))
  {
    var o := RepriceOutcome(c.limits, c.patience, passes, row, v);
    var w' := ApplyAll(w, o.effects);
    var rested', inherited' := RestedAfter(rested, row), InheritedAfter(c, passes, inherited, row, v);
    NoSuccessorBeforeCancel(w, c.limits, row.id);
    OutcomeCounts(c, passes, rested, inherited, row, v);
    OutcomeNames(c, passes, inherited, row, v);
    RepriceKeepsRows(w, c, passes, row, v);
    RepriceHandsBack(w, c.limits, c.patience, passes, row, v, row.id);
    forall id | id in w'.rows && IsLive(w'.rows[id].state)
      ensures WellCounted(c.patience, o.passes, rested', inherited', id)
    {
      if id.chain != row.id.chain {
        RepriceOwnChain(w, c.limits, c.patience, passes, row, v, id);
        OutcomeElsewhere(c, passes, rested, inherited, row, v, id);
      } else {
        RepriceHandsBack(w, c.limits, c.patience, passes, row, v, id);
      }
    }
  }

  lemma RepriceKeepsRows(w: World, c: Config, passes: map<ChainKey, nat>, row: Row, v: Venue)
    requires Inv(w, c.limits) && row.id in w.rows && w.rows[row.id] == row
    ensures var w' := ApplyAll(w, RepriceOutcome(c.limits, c.patience, passes, row, v).effects);
            w.rows.Keys <= w'.rows.Keys && Inv(w', c.limits) && OrderId(row.id.chain, 0) in w.rows
  {
    var es := RepriceOutcome(c.limits, c.patience, passes, row, v).effects;
    RepriceSound(w, c.limits, c.patience, passes, row, v);
    InvAfter(w, c.limits, es, false);
    if row.id.generation > 0 { EarlierGenerations(w, c.limits, row.id, 0); }
  }

  /** A whole pass keeps the counts in order. */
  lemma {:induction false} PassCounted(s: State, c: Config, ids: seq<OrderId>, v: OrderId -> Venue)
    requires Inv(s.world, c.limits) && AllOpen(s.world, ids) && forall id | id in ids :: IsLive(s.world.rows[id].state)
    requires Counted(s.world, c.patience, s.passes, s.rested, s.inherited)
    ensures var all, h := RepriceAll(s.world, c.limits, c.patience, s.passes, ids, v), HistoryAfter(s, c, ids, v);
            Counted(ApplyAll(s.world, all.0), c.patience, all.1, h.0, h.1)
    decreases |ids|
  {
    if ids != [] {
      var n := |ids| - 1;
      var w, l := s.world, c.limits;
      var before, h := RepriceAll(w, l, c.patience, s.passes, ids[..n], v), HistoryAfter(s, c, ids[..n], v);
      PassCounted(s, c, ids[..n], v);
      RepriceAllSound(w, l, c.patience, s.passes, ids[..n], v);
      InvAfter(w, l, before.0, false);
      RepriceAllOwnChains(w, l, c.patience, s.passes, ids[..n], v, ids[n]);
      RepriceCounted(ApplyAll(w, before.0), c, before.1, h.0, h.1, w.rows[ids[n]], v(ids[n]));
      ApplyAllConcat(w, before.0, RepriceOutcome(l, c.patience, before.1, w.rows[ids[n]], v(ids[n])).effects);
    }
  }

  lemma FirstOnlyConcat(w: World, a: seq<Effect>, b: seq<Effect>)
    requires FirstOnly(w.rows, a) && FirstOnly(ApplyAll(w, a).rows, b)
    ensures FirstOnly(w.rows, a + b)
  {
    forall i | 0 <= i < |a + b| && (a + b)[i].SaveRow?
      ensures (a + b)[i].row.id in w.rows || (a + b)[i].row.id.generation == 0
    {
      if i >= |a| {
        assert (a + b)[i] == b[i - |a|];
        if b[i - |a|].row.id !in w.rows && b[i - |a|].row.id in ApplyAll(w, a).rows {
          FirstOnlyRows(w, a, b[i - |a|].row.id);
        }
      }
    }
  }

  lemma {:induction false} PlaceFirstFirstOnly(w: World, rows: seq<Row>, answers: nat -> Answers, n: nat)
    requires n <= |rows| && forall k | 0 <= k < |rows| :: rows[k].id.generation == 0
    ensures FirstOnly(w.rows, PlaceFirst(w, rows, answers, n))
  {
    if n > 0 {
      PlaceFirstFirstOnly(w, rows, answers, n - 1);
      var es := PlaceFirst(w, rows, answers, n - 1);
      var one := PlaceOneEffects(ApplyAll(w, es).rows, rows[n - 1], answers(n - 1));
      PlaceOneFirstOnly(ApplyAll(w, es).rows, rows[n - 1], answers(n - 1));
      FirstOnlyConcat(w, es, one);
      assert PlaceFirst(w, rows, answers, n) == es + one;
    }
  }

  lemma PlaceOneFirstOnly(rows: map<OrderId, Row>, row: Row, answers: Answers)
    requires row.id.generation == 0
    ensures FirstOnly(rows, PlaceOneEffects(rows, row, answers))
  {
    AttemptsFirstOnly(row, answers, 1);
  }

  lemma {:induction false} AttemptsFirstOnly(row: Row, answers: Answers, n: nat)
    requires 1 <= n <= IMMEDIATE_RETRY_LIMIT && row.id.generation == 0
    ensures forall i | 0 <= i < |Attempts(row, answers, n)| :: Attempts(row, answers, n)[i].SaveRow? ==> Attempts(row, answers, n)[i].row.id == row.id
    decreases IMMEDIATE_RETRY_LIMIT - n
  {
    if Transient(answers, n) && n < IMMEDIATE_RETRY_LIMIT {
      AttemptsFirstOnly(row, answers, n + 1);
    }
  }

  lemma {:induction false} SweepFirstOnly(w: World, ids: seq<OrderId>, scope: Option<string>, a: Sweep.Replies)
    requires forall id | id in ids :: id in w.rows && w.rows[id].id == id
    ensures FirstOnly(w.rows, Sweep.SweepEffects(w, ids, scope, a))
    decreases |ids|
  {
    if ids != [] {
      SweepFirstOnly(w, ids[..|ids| - 1], scope, a);
    }
  }

  lemma {:induction false} SaveEachFirstOnly(w: World, ids: seq<OrderId>, rule: Rule)
    requires Keyed(w.rows) && Lawful(w, ids, rule)
    ensures FirstOnly(w.rows, SaveEach(w, ids, rule))
    decreases |ids|
  {
    if ids != [] {
      SaveEachFirstOnly(w, ids[..|ids| - 1], rule);
    }
  }

  lemma {:induction false} IngestFirstOnly(w: World, slug: string, batch: seq<Fill>)
    requires Keyed(w.rows)
    ensures FirstOnly(w.rows, Fills.IngestAll(w, slug, batch).effects)
    decreases |batch|
  {
    if batch != [] && !Fills.IngestOne(w, slug, batch[0]).raised {
      var s := Fills.IngestOne(w, slug, batch[0]);
      Fills.IngestOneApplied(w, slug, batch[0]);
      IngestFirstOnly(ApplyAll(w, s.effects), slug, batch[1..]);
      FirstOnlyConcat(w, s.effects, Fills.IngestAll(ApplyAll(w, s.effects), slug, batch[1..]).effects);
    }
  }

  /** Only a reprice pass creates a successor. */
  lemma OnlyRepriceSucceeds(s: State, c: Config, e: Event)
    requires Inv(s.world, c.limits) && Enabled(s, c, e) && Listed(s, e) && !e.RepricePass?
    ensures FirstOnly(s.world.rows, EffectsOf(s, c, e))
  {
    var w, l := s.world, c.limits;
    match e
    case Submission(desk, intent, count, active, answers) =>
      if SubmitEffects(w, desk, intent, count, active, answers).Ok? {
        PlaceFirstFirstOnly(w, Plan(desk, intent, count).value, answers, |Plan(desk, intent, count).value|);
      }
    case SweepPass(slug, ids, scope, replies) =>
      SweepFirstOnly(w, ids, scope, replies);
    case FillBatch(slug, batch) =>
      IngestFirstOnly(w, slug, batch);
    case Reconciliation(slug, ids, scope, listing) =>
      ReconcileLawful(w, l, slug, ids, scope, listing);
      SaveEachFirstOnly(w, ids, ReconcileRule(scope, listing));
    case Expiry(slug, ids) =>
      ExpireLawful(w, l, slug, ids);
      SaveEachFirstOnly(w, ids, ExpireRule());
  }

  ghost predicate StateOk(s: State, c: Config) {
    Inv(s.world, c.limits) && Counted(s.world, c.patience, s.passes, s.rested, s.inherited)
  }

  /** An event run to its end keeps the counts. */
  lemma WholeStepCounted(s: State, c: Config, e: Event)
    requires StateOk(s, c) && Enabled(s, c, e) && Listed(s, e)
    requires Evolves(s.world, Step(s, c, Turn(e, None)).world)
    ensures var s' := Step(s, c, Turn(e, None)); Counted(s'.world, c.patience, s'.passes, s'.rested, s'.inherited)
  {
    match e
    case RepricePass(slug, engine, ids, v) =>
      OpenOrdersAreApart(s.world, c.limits, slug, engine, ids);
      assert forall id | id in ids :: id in OpenIds(s.world, c.limits, slug, engine);
      PassCounted(s, c, ids, v);
    case _ =>
      OnlyRepriceSucceeds(s, c, e);
      var w' := Step(s, c, Turn(e, None)).world;
      forall id | id in w'.rows && id !in s.world.rows
        ensures id.generation == 0
      {
        FirstOnlyRows(s.world, EffectsOf(s, c, e), id);
      }
      CountedKept(s.world, w', c.patience, s.passes, s.rested, s.inherited);
  }

  predicate Cut(s: State, c: Config, t: Turn)
    requires Listed(s, t.event)
  {
    t.cut.Some? && t.cut.value < |EffectsOf(s, c, t.event)|
  }

  /** A crash forgets the counters, and what happened before it was sound. */
  lemma CutStepOk(s: State, c: Config, t: Turn)
    requires StateOk(s, c) && Enabled(s, c, t.event) && Listed(s, t.event) && Cut(s, c, t)
    ensures StateOk(Step(s, c, t), c) && Evolves(s.world, Step(s, c, t).world)
  {
    EventSound(s, c, t.event);
    SafeAtEveryCrash(s.world, c.limits, EffectsOf(s, c, t.event), ByFill(t.event), t.cut.value);
  }

  lemma UncutStep(s: State, c: Config, t: Turn)
    requires Listed(s, t.event) && !Cut(s, c, t)
    ensures Step(s, c, t) == Step(s, c, Turn(t.event, None))
  {
  }

  lemma WholeStepOk(s: State, c: Config, e: Event)
    requires StateOk(s, c) && Enabled(s, c, e) && Listed(s, e)
    ensures StateOk(Step(s, c, Turn(e, None)), c)
    ensures Evolves(s.world, Step(s, c, Turn(e, None)).world)
  {
    EventSound(s, c, e);
    InvAfter(s.world, c.limits, EffectsOf(s, c, e), ByFill(e));
    assert Step(s, c, Turn(e, None)).world == ApplyAll(s.world, EffectsOf(s, c, e));
    WholeStepCounted(s, c, e);
  }

  lemma StepOk(s: State, c: Config, t: Turn)
    requires StateOk(s, c) && Enabled(s, c, t.event) && Listed(s, t.event)
    ensures StateOk(Step(s, c, t), c)
    ensures Evolves(s.world, Step(s, c, t).world)
  {
    if Cut(s, c, t) {
      CutStepOk(s, c, t);
    } else {
      UncutStep(s, c, t);
      WholeStepOk(s, c, t.event);
    }
  }

  // ── every run ─────────────────────────────────────────────────────────────

  ghost predicate Possible(s: State, c: Config, run: seq<Turn>)
    decreases |run|
  {
    run == [] || (Enabled(s, c, run[0].event) && Listed(s, run[0].event) && Possible(Step(s, c, run[0]), c, run[1..]))
  }

  ghost function Final(s: State, c: Config, run: seq<Turn>): State
    requires Possible(s, c, run)
    decreases |run|
  {
    if run == [] then s else Final(Step(s, c, run[0]), c, run[1..])
  }

  lemma {:induction false} RunOk(s: State, c: Config, run: seq<Turn>)
    requires StateOk(s, c) && Possible(s, c, run)
    ensures StateOk(Final(s, c, run), c)
    ensures Evolves(s.world, Final(s, c, run).world)
    decreases |run|
  {
    if run != [] {
      var next := Step(s, c, run[0]);
      StepOk(s, c, run[0]);
      RunOk(next, c, run[1..]);
      EvolvesTransitive(s.world, next.world, Final(s, c, run).world);
    }
  }

  const START: State := State(World(map[], map[], map[], [], {}), map[], map[], {})

  /** What is approved, and where the price went, of one order. */
  ghost predicate OrderKept(w: World, l: Limits, a: OrderId)
    requires a in w.rows
  {
    var first := OrderId(a.chain, 0);
    && a.generation <= MAX_PRICE_RETRIES
    && first in w.rows
    && 0.0 <= w.rows[a].filled <= w.rows[a].size
    && FilledBelow(w.rows, a.chain, a.generation) + w.rows[a].size == w.rows[first].size
    && w.rows[a].direction == w.rows[first].direction
    && w.rows[a].price == w.rows[first].price
         + (if w.rows[a].direction == Up then a.generation as real else -(a.generation as real)) * l.tick
    && (a.generation > 0 ==> InBand(l, a.chain.offset, w.rows[a].price) && w.rows[a].price > 0.0)
  }

  lemma InvKeepsOrder(w: World, l: Limits, a: OrderId)
    requires Inv(w, l) && a in w.rows
    ensures OrderKept(w, l, a)
  {
    assert RowOk(a, w.rows[a]);
    ExposureConserved(w, l, a);
    PricePath(w, l, a);
  }

  /**
   After any run: a chain's earlier fills and its last order's size add up to the approved size; at
   most one of its orders is live, and at most one can be working at the venue; the prices climb
   tick by tick inside the band; and the venue took on no id twice, and none without a row.
   */
  lemma EveryRunIsSafe(c: Config, run: seq<Turn>, a: OrderId, b: OrderId)
    requires Possible(START, c, run)
    ensures var w := Final(START, c, run).world;
            && NoRepeats(w.accepted)
            && (a in w.accepted ==> a in w.rows)
            && (a in w.rows ==> OrderKept(w, c.limits, a))
            && (a in w.rows && b in w.rows && a.chain == b.chain && IsLive(w.rows[a].state) && IsLive(w.rows[b].state) ==> a == b)
            && (a in w.accepted && b in w.accepted && a.chain == b.chain && a !in w.retired && b !in w.retired ==> a == b)
  {
    RunOk(START, c, run);
    var w, l := Final(START, c, run).world, c.limits;
    if a in w.rows {
      InvKeepsOrder(w, l, a);
      if b in w.rows && a.chain == b.chain && IsLive(w.rows[a].state) && IsLive(w.rows[b].state) {
        OneLivePerChain(w, l, a, b);
      }
    }
    if a in w.accepted && b in w.accepted && a.chain == b.chain && a !in w.retired && b !in w.retired {
      OneWorkingPerChain(w, l, a, b);
    }
  }

  /** A row that is terminal at some point of a run is the same row ever after. */
  lemma TerminalForGood(c: Config, run: seq<Turn>, more: seq<Turn>, id: OrderId)
    requires Possible(START, c, run) && Possible(Final(START, c, run), c, more)
    requires id in Final(START, c, run).world.rows && IsTerminal(Final(START, c, run).world.rows[id].state)
    ensures var later := Final(Final(START, c, run), c, more).world;
            id in later.rows && later.rows[id] == Final(START, c, run).world.rows[id]
  {
    RunOk(START, c, run);
    RunOk(Final(START, c, run), c, more);
  }

  // ── patience ──────────────────────────────────────────────────────────────

  /** The call asks the venue to cancel. */
  predicate Asks(o: Outcome) {
    o.effects != [] && o.effects[0].Cancel?
  }

  lemma EarlyExactlyWhen(s: State, c: Config, id: OrderId, v: Venue)
    requires StateOk(s, c) && id in s.world.rows && Considered(s.world.rows[id])
    requires Target(c.limits, id.chain.offset, s.world.rows[id].price, v.best, s.world.rows[id].direction).Some?
    requires Rested(RestedAfter(s.rested, s.world.rows[id]), id) <= c.patience
    ensures Asks(RepriceOutcome(c.limits, c.patience, s.passes, s.world.rows[id], v)) <==> id in s.inherited
  {
    assert RowOk(id, s.world.rows[id]);
    assert WellCounted(c.patience, s.passes, s.rested, s.inherited, id);
  }

  /**
   In every state a run reaches, an order that could move is asked to cancel before it has rested
   through more than the configured passes exactly when it inherited a spent counter.
   */
  lemma EarlyExactlyWhenInherited(c: Config, run: seq<Turn>, id: OrderId, v: Venue)
    requires Possible(START, c, run)
    requires var s := Final(START, c, run);
             && id in s.world.rows && Considered(s.world.rows[id])
             && Target(c.limits, id.chain.offset, s.world.rows[id].price, v.best, s.world.rows[id].direction).Some?
             && Rested(RestedAfter(s.rested, s.world.rows[id]), id) <= c.patience
    ensures var s := Final(START, c, run);
            Asks(RepriceOutcome(c.limits, c.patience, s.passes, s.world.rows[id], v)) <==> id in s.inherited
  {
    RunOk(START, c, run);
    EarlyExactlyWhen(Final(START, c, run), c, id, v);
  }

  /** One order on record, after `n` passes that left it where it was. */
  function Idled(w: World, id: OrderId, n: nat): State {
    if n == 0 then State(w, map[], map[], {}) else State(w, map[id.chain := n], map[id := n], {})
  }

  predicate OneOpen(w: World, l: Limits, id: OrderId) {
    && w.rows.Keys == {id} && w.rows[id].id == id && Considered(w.rows[id]) && w.rows[id].Remaining() > 0.0
    && id.chain.offset in l.bands
  }

  function PassOver(id: OrderId, v: Venue): Turn {
    Turn(RepricePass(id.chain.slug, id.chain.engine, [id], _ => v), None)
  }

  /** The turn `n` times, and then `rest`. */
  function Repeated(t: Turn, n: nat, rest: seq<Turn>): seq<Turn> {
    if n == 0 then rest else [t] + Repeated(t, n - 1, rest)
  }

  /** What a pass over the one order comes to. */
  lemma PassOne(s: State, c: Config, id: OrderId, v: Venue)
    requires OneOpen(s.world, c.limits, id)
    ensures var t := PassOver(id, v);
            var o := RepriceOutcome(c.limits, c.patience, s.passes, s.world.rows[id], v);
            && Enabled(s, c, t.event) && Listed(s, t.event)
            && Step(s, c, t) == State(ApplyAll(s.world, o.effects), o.passes, RestedAfter(s.rested, s.world.rows[id]),
                                      InheritedAfter(c, s.passes, s.inherited, s.world.rows[id], v))
  {
    var w, venue := s.world, (x: OrderId) => v;
    assert [id][..0] == [];
    assert RepriceAll(w, c.limits, c.patience, s.passes, [], venue) == ([], s.passes);
    assert HistoryAfter(s, c, [], venue) == (s.rested, s.inherited);
    var o := RepriceOutcome(c.limits, c.patience, s.passes, w.rows[id], v);
    assert [] + o.effects == o.effects;
    assert RepriceAll(w, c.limits, c.patience, s.passes, [id], venue) == (o.effects, o.passes);
    assert OpenIds(w, c.limits, id.chain.slug, id.chain.engine) == {id};
  }

  lemma IdleOnce(w: World, c: Config, id: OrderId, v: Venue, k: nat)
    requires OneOpen(w, c.limits, id) && k < c.patience
    ensures var t := PassOver(id, v);
            Enabled(Idled(w, id, k), c, t.event) && Listed(Idled(w, id, k), t.event) && Step(Idled(w, id, k), c, t) == Idled(w, id, k + 1)
  {
    var s, row := Idled(w, id, k), w.rows[id];
    assert s.passes[id.chain := k + 1] == map[id.chain := k + 1] && s.rested[id := k + 1] == map[id := k + 1];
    assert RepriceOutcome(c.limits, c.patience, s.passes, row, v) == Outcome([], map[id.chain := k + 1], row);
    assert InheritedAfter(c, s.passes, {}, row, v) == {};
    PassOne(s, c, id, v);
    assert ApplyAll(w, []) == w;
  }

  lemma TurnTo(s: State, c: Config, t: Turn, next: State, rest: seq<Turn>)
    requires Enabled(s, c, t.event) && Listed(s, t.event) && Step(s, c, t) == next && Possible(next, c, rest)
    ensures Possible(s, c, [t] + rest) && Final(s, c, [t] + rest) == Final(next, c, rest)
  {
    assert ([t] + rest)[1..] == rest;
  }

  lemma IdleThen(w: World, c: Config, id: OrderId, v: Venue, k: nat, here: State, next: State, rest: seq<Turn>)
    requires OneOpen(w, c.limits, id) && k < c.patience && here == Idled(w, id, k) && next == Idled(w, id, k + 1)
    requires Possible(next, c, rest)
    ensures Possible(here, c, [PassOver(id, v)] + rest) && Final(here, c, [PassOver(id, v)] + rest) == Final(next, c, rest)
  {
    IdleOnce(w, c, id, v, k);
    TurnTo(here, c, PassOver(id, v), next, rest);
  }

  /** Within its patience the order stays where it is, pass after pass. */
  lemma {:induction false} IdlePasses(w: World, c: Config, id: OrderId, v: Venue, k: nat, here: State, spent: State, rest: seq<Turn>)
    requires OneOpen(w, c.limits, id) && k <= c.patience && here == Idled(w, id, k) && spent == Idled(w, id, c.patience)
    requires Possible(spent, c, rest)
    ensures var run := Repeated(PassOver(id, v), c.patience - k, rest);
            Possible(here, c, run) && Final(here, c, run) == Final(spent, c, rest)
    decreases c.patience - k
  {
    if k < c.patience {
      var next := Idled(w, id, k + 1);
      IdlePasses(w, c, id, v, k + 1, next, spent, rest);
      IdleThen(w, c, id, v, k, here, next, Repeated(PassOver(id, v), c.patience - k - 1, rest));
    }
  }

  /** A batch of one new fill, of a live order with room for it. */
  lemma FilledOnce(s: State, c: Config, f: Fill)
    requires f.order in s.world.rows && f.id !in s.world.fills && f.size > 0.0
    requires s.world.rows[f.order].id == f.order && IsLive(s.world.rows[f.order].state)
    ensures var t := Turn(FillBatch(f.order.chain.slug, [f]), None);
            && Enabled(s, c, t.event) && Listed(s, t.event)
            && f.order in Step(s, c, t).world.rows
            && Step(s, c, t).world.rows[f.order] == WithFill(s.world.rows[f.order], f.size)
            && Step(s, c, t) == s.(world := Step(s, c, t).world)
  {
    var slug, one := f.order.chain.slug, Fills.IngestOne(s.world, f.order.chain.slug, f);
    assert [f][1..] == [];
    assert Fills.IngestAll(ApplyAll(s.world, one.effects), slug, []).effects == [];
    assert one.effects + [] == one.effects;
    Fills.IngestOneApplied(s.world, slug, f);
  }

  /** The pass that moves the order, with the successor's placement unanswered, and a fill of the successor. */
  lemma LostThenFilled(w: World, c: Config, id: OrderId, v: Venue, f: Fill)
    requires OneOpen(w, c.limits, id) && c.patience > 0 && w.fills == map[]
    requires Target(c.limits, id.chain.offset, w.rows[id].price, v.best, w.rows[id].direction).Some?
    requires v.cancel.Acknowledged? && v.place.Failed? && Classify(v.place.why).OutcomeUnknown?
    requires f.order == id.Next() && 0.0 < f.size < w.rows[id].Remaining()
    ensures var s := Idled(w, id, c.patience);
            && Possible(s, c, Losing(id, v, f))
            && var s' := Final(s, c, Losing(id, v, f));
               && id.Next() in s'.world.rows && s'.world.rows[id.Next()].state.Partial?
               && s'.world.rows[id.Next()].price == StepPrice(w.rows[id].price, w.rows[id].direction, c.limits.tick)
               && s'.world.rows[id.Next()].direction == w.rows[id].direction
               && id.Next() in s'.inherited && Rested(s'.rested, id.Next()) == 0
  {
    var s, row, first := Idled(w, id, c.patience), w.rows[id], PassOver(id, v);
    var price := Target(c.limits, id.chain.offset, row.price, v.best, row.direction).value;
    PassOne(s, c, id, v);
    MoveLeaves(w, s.passes[id.chain := c.patience + 1], row, price, v);
    NoFillSaved(w, RepriceOutcome(c.limits, c.patience, s.passes, row, v).effects);
    var s1, second := Step(s, c, first), Turn(FillBatch(id.chain.slug, [f]), None);
    FilledOnce(s1, c, f);
    TurnTo(s1, c, second, Step(s1, c, second), []);
    TurnTo(s, c, first, s1, [second]);
    assert [second] + [] == [second] && [first] + [second] == [first, second];
  }

  function Stays(): Venue {
    Venue(None, Acknowledged, Accepted(""))
  }

  /** Moved with the successor's answer lost, and a fill of the successor. */
  function Losing(id: OrderId, v: Venue, f: Fill): seq<Turn> {
    [PassOver(id, v), Turn(FillBatch(id.chain.slug, [f]), None)]
  }

  /** Submitted, passed over until its patience is spent, and then that. */
  function LosingRun(c: Config, desk: Desk, i: Intent, answers: nat -> Answers, v: Venue, f: Fill): seq<Turn> {
    var id := Slot(desk, i, 0);
    [Turn(Submission(desk, i, 1, true, answers), None)] + Repeated(PassOver(id, Stays()), c.patience, Losing(id, v, f))
  }

  function SubmittedOne(sent: Row): World {
    World(map[sent.id := sent], map[], map[], [sent.id], {})
  }

  lemma SubmittedFirst(c: Config, desk: Desk, i: Intent, answers: nat -> Answers)
    requires Plan(desk, i, 1).Ok? && |Plan(desk, i, 1).value| == 1 && answers(0)(1).Accepted?
    ensures var row, t := Plan(desk, i, 1).value[0], Turn(Submission(desk, i, 1, true, answers), None);
            && row.id == Slot(desk, i, 0)
            && Enabled(START, c, t.event) && Listed(START, t.event)
            && Step(START, c, t) == Idled(SubmittedOne(Settled(row, answers(0)(1))), row.id, 0)
  {
    var row := Plan(desk, i, 1).value[0];
    SubmissionBegins(START.world, desk, i, answers);
    var sent := Settled(row, answers(0)(1));
    Three([], START.world, SaveRow(row), Place(row.id, answers(0)(1)), SaveRow(sent));
    assert ApplyAll(START.world, [SaveRow(row), Place(row.id, answers(0)(1)), SaveRow(sent)]).rows == map[row.id := sent];
  }

  /** An order that inherited a spent counter is asked to cancel on its first pass. */
  lemma InheritedAsks(s: State, c: Config, run: seq<Turn>, id: OrderId, later: Venue)
    requires Possible(START, c, run) && s == Final(START, c, run) && c.patience > 0
    requires id in s.world.rows && Resting(s.world.rows[id]) && id.generation < MAX_PRICE_RETRIES
    requires id in s.inherited && Rested(s.rested, id) == 0
    requires Target(c.limits, id.chain.offset, s.world.rows[id].price, later.best, s.world.rows[id].direction).Some?
    ensures s.world.rows[id].id == id && Rested(RestedAfter(s.rested, s.world.rows[id]), id) <= c.patience
    ensures Asks(RepriceOutcome(c.limits, c.patience, s.passes, s.world.rows[id], later))
  {
    RunOk(START, c, run);
    assert RowOk(id, s.world.rows[id]);
    EarlyExactlyWhenInherited(c, run, id, later);
  }

  lemma LosingRunEnds(c: Config, desk: Desk, i: Intent, answers: nat -> Answers, v: Venue, f: Fill) returns (s: State)
    requires Plan(desk, i, 1).Ok? && |Plan(desk, i, 1).value| == 1 && answers(0)(1).Accepted? && c.patience > 0
    requires var row := Plan(desk, i, 1).value[0];
             && f.order == row.id.Next() && 0.0 < f.size < row.size
             && Target(c.limits, i.offset, row.price, v.best, row.direction).Some?
    requires v.cancel.Acknowledged? && v.place.Failed? && Classify(v.place.why).OutcomeUnknown?
    ensures Possible(START, c, LosingRun(c, desk, i, answers, v, f)) && s == Final(START, c, LosingRun(c, desk, i, answers, v, f))
    ensures var id, row := Slot(desk, i, 0).Next(), Plan(desk, i, 1).value[0];
            && id in s.world.rows && s.world.rows[id].state.Partial? && s.world.rows[id].direction == row.direction
            && s.world.rows[id].price == StepPrice(row.price, row.direction, c.limits.tick)
            && id in s.inherited && Rested(s.rested, id) == 0
  {
    var id, row := Slot(desk, i, 0), Plan(desk, i, 1).value[0];
    var first, w := Turn(Submission(desk, i, 1, true, answers), None), SubmittedOne(Settled(row, answers(0)(1)));
    var rest := Losing(id, v, f);
    SubmittedFirst(c, desk, i, answers);
    LostThenFilled(w, c, id, v, f);
    var here, spent := Idled(w, id, 0), Idled(w, id, c.patience);
    IdlePasses(w, c, id, Stays(), 0, here, spent, rest);
    TurnTo(START, c, first, here, Repeated(PassOver(id, Stays()), c.patience, rest));
    s := Final(spent, c, rest);
  }

  /**
   How a counter is inherited spent, for every patience: a successor whose placement was not answered,
   shown resting by a fill, is asked to cancel on the first pass it rests through.
   */
  lemma LostPlacementLosesPatience(c: Config, desk: Desk, i: Intent, answers: nat -> Answers, v: Venue, f: Fill, later: Venue)
    requires Plan(desk, i, 1).Ok? && |Plan(desk, i, 1).value| == 1 && answers(0)(1).Accepted? && c.patience > 0
    requires var row := Plan(desk, i, 1).value[0];
             && f.order == row.id.Next() && 0.0 < f.size < row.size
             && Target(c.limits, i.offset, row.price, v.best, row.direction).Some?
             && Target(c.limits, i.offset, StepPrice(row.price, row.direction, c.limits.tick), later.best, row.direction).Some?
    requires v.cancel.Acknowledged? && v.place.Failed? && Classify(v.place.why).OutcomeUnknown?
    ensures Possible(START, c, LosingRun(c, desk, i, answers, v, f))
    ensures var s, id := Final(START, c, LosingRun(c, desk, i, answers, v, f)), Slot(desk, i, 0).Next();
            && id in s.inherited && id in s.world.rows
            && Rested(RestedAfter(s.rested, s.world.rows[id]), id) <= c.patience
            && Asks(RepriceOutcome(c.limits, c.patience, s.passes, s.world.rows[id], later))
  {
    var s := LosingRunEnds(c, desk, i, answers, v, f);
    InheritedAsks(s, c, LosingRun(c, desk, i, answers, v, f), Slot(desk, i, 0).Next(), later);
  }

  // ── a crash the restart misreads ──────────────────────────────────────────

  /** A ladder of one whose first answer is no transient reject. */
  lemma SubmissionBegins(w: World, desk: Desk, i: Intent, answers: nat -> Answers)
    requires Plan(desk, i, 1).Ok? && |Plan(desk, i, 1).value| == 1 && !Transient(answers(0), 1) && Slot(desk, i, 0) !in w.rows
    ensures var row := Plan(desk, i, 1).value[0];
            SubmitEffects(w, desk, i, 1, true, answers) ==
              Ok([SaveRow(row), Place(row.id, answers(0)(1)), SaveRow(Settled(row, answers(0)(1)))])
            && row.id == Slot(desk, i, 0) && row.state.Pending?
  {
    var rows := Plan(desk, i, 1).value;
    assert PlaceFirst(w, rows, answers, 0) == [];
    assert ApplyAll(w, []) == w;
    var one := PlaceOneEffects(w.rows, rows[0], answers(0));
    assert PlaceFirst(w, rows, answers, 1) == [] + one;
    AnsweredAtOnce(rows[0], answers(0));
    assert one == [SaveRow(rows[0]), Place(rows[0].id, answers(0)(1)), SaveRow(Settled(rows[0], answers(0)(1)))];
    assert PlaceAllEffects(w, rows, answers) == one;
  }

  lemma AnsweredAtOnce(row: Row, answers: Answers)
    requires !Transient(answers, 1)
    ensures Attempts(row, answers, 1) == [Place(row.id, answers(1)), SaveRow(Settled(row, answers(1)))]
  {
    assert Attempts(row, answers, 1) == [Place(row.id, answers(1))] + [SaveRow(Settled(row, answers(1)))];
  }

  /**
   A crash after the venue took an order on, but before its answer was recorded, leaves a PENDING row.
   At restart reconciliation meets the order resting at the venue and passes it over, since only
   INDETERMINATE rows are matched; then the row is expired. It is terminal, and the order still works.
   */
  lemma ExpiryForgetsWorkingOrder(c: Config, desk: Desk, i: Intent, answers: nat -> Answers, v: VenueOrder)
    requires Plan(desk, i, 1).Ok? && |Plan(desk, i, 1).value| == 1 && answers(0)(1).Accepted?
    requires v.client == Ours(Slot(desk, i, 0)) && v.filled >= 0.0 && v.resting
    ensures var id := Slot(desk, i, 0);
            var run := [Turn(Submission(desk, i, 1, true, answers), Some(2)),
                        Turn(Reconciliation(i.slug, [id], None, [v]), None),
                        Turn(Expiry(i.slug, [id]), None)];
            && Possible(START, c, run)
            && var w := Final(START, c, run).world;
               && id in w.accepted && id !in w.retired
               && id in w.rows && w.rows[id].state.Expired?
  {
    var id, row := Slot(desk, i, 0), Plan(desk, i, 1).value[0];
    var first := Turn(Submission(desk, i, 1, true, answers), Some(2));
    var second, third := Turn(Reconciliation(i.slug, [id], None, [v]), None), Turn(Expiry(i.slug, [id]), None);
    SubmissionBegins(START.world, desk, i, answers);
    var es := SubmitEffects(START.world, desk, i, 1, true, answers).value;
    assert es[..2] == [SaveRow(row), Place(id, answers(0)(1))];
    Two([], START.world, SaveRow(row), Place(id, answers(0)(1)));
    var s1 := Step(START, c, first);
    assert s1.world.rows == map[id := row] && s1.world.accepted == [id];
    OnePendingRow(s1.world, id, row, v);
    var s2, gone := Step(s1, c, second), SaveRow(Moved(row, Expired, "unsubmitted at restart"));
    assert ApplyAll(s1.world, []) == s1.world;
    assert s2 == s1;
    ApplyAllOne(s2.world, gone);
    TurnTo(s2, c, third, Step(s2, c, third), []);
    TurnTo(s1, c, second, s2, [third]);
    TurnTo(START, c, first, s1, [second, third]);
    assert [third] + [] == [third] && [second] + [third] == [second, third] && [first] + [second, third] == [first, second, third];
  }

  lemma OnePendingRow(w: World, id: OrderId, row: Row, v: VenueOrder)
    requires w.rows == map[id := row] && row.id == id && row.state.Pending?
    ensures SaveEach(w, [id], ReconcileRule(None, [v])) == []
    ensures SaveEach(w, [id], ExpireRule()) == [SaveRow(Moved(row, Expired, "unsubmitted at restart"))]
  {
    assert [id][..0] == [];
  }

  // ── a fill while the process was down ─────────────────────────────────────

  lemma OneUnknownRow(w: World, id: OrderId, row: Row, v: VenueOrder)
    requires w.rows == map[id := row] && row.id == id && row.state.Indeterminate? && v.client == Ours(id)
    ensures SaveEach(w, [id], ReconcileRule(None, [v])) == [SaveRow(Resolved(row, Some(v)))]
  {
    assert [id][..0] == [];
    assert [v][..0] == [];
  }

  /** Submitted with the answer lost, reconciled against a venue that shows it filled in part, and then that fill. */
  function DowntimeRun(desk: Desk, i: Intent, answers: nat -> Answers, v: VenueOrder, f: Fill): seq<Turn> {
    [Turn(Submission(desk, i, 1, true, answers), None)]
    + ([Turn(Reconciliation(i.slug, [Slot(desk, i, 0)], None, [v]), None)]
       + ([Turn(FillBatch(i.slug, [f]), None)] + []))
  }

  lemma SubmittedUnknown(c: Config, desk: Desk, i: Intent, answers: nat -> Answers) returns (s: State)
    requires Plan(desk, i, 1).Ok? && |Plan(desk, i, 1).value| == 1
    requires answers(0)(1).Failed? && Classify(answers(0)(1).why).OutcomeUnknown?
    ensures var row, t := Plan(desk, i, 1).value[0], Turn(Submission(desk, i, 1, true, answers), None);
            && row.id == Slot(desk, i, 0) && row.state.Pending? && row.filled == 0.0
            && Enabled(START, c, t.event) && Listed(START, t.event) && s == Step(START, c, t)
            && s.world.rows == map[row.id := Settled(row, answers(0)(1))] && s.world.fills == map[]
  {
    var row, a := Plan(desk, i, 1).value[0], answers(0)(1);
    SubmissionBegins(START.world, desk, i, answers);
    Three([], START.world, SaveRow(row), Place(row.id, a), SaveRow(Settled(row, a)));
    s := Step(START, c, Turn(Submission(desk, i, 1, true, answers), None));
  }

  lemma OneListed(rows: map<OrderId, Row>, id: OrderId)
    requires rows.Keys == {id}
    ensures Enumerates([id], IdsOf(rows, id.chain.slug, false))
  {
    assert IdsOf(rows, id.chain.slug, false) == {id};
  }

  lemma ReconciledOne(s: State, c: Config, id: OrderId, v: VenueOrder) returns (next: State)
    requires s.world.rows.Keys == {id} && s.world.rows[id].id == id && s.world.rows[id].state.Indeterminate?
    requires v.client == Ours(id) && v.filled >= 0.0
    ensures var t := Turn(Reconciliation(id.chain.slug, [id], None, [v]), None);
            && Enabled(s, c, t.event) && Listed(s, t.event) && next == Step(s, c, t)
            && next.world.rows == map[id := Resolved(s.world.rows[id], Some(v))] && next.world.fills == s.world.fills
  {
    var row := s.world.rows[id];
    assert s.world.rows == map[id := row];
    OneListed(s.world.rows, id);
    OneUnknownRow(s.world, id, row, v);
    ApplyAllOne(s.world, SaveRow(Resolved(row, Some(v))));
    next := Step(s, c, Turn(Reconciliation(id.chain.slug, [id], None, [v]), None));
  }

  /**
   Restart reconciles before any fill is polled in, so a fill the process slept through counts twice:
   the venue's figure holds it, and the poll adds it again. The row turns FILLED, with quantity still
   open at the venue, exactly when twice the fill reaches the order's size.
   */
  lemma DowntimeFillCountsTwice(c: Config, desk: Desk, i: Intent, answers: nat -> Answers, v: VenueOrder, f: Fill)
    requires Plan(desk, i, 1).Ok? && |Plan(desk, i, 1).value| == 1
    requires answers(0)(1).Failed? && Classify(answers(0)(1).why).OutcomeUnknown?
    requires v.client == Ours(Slot(desk, i, 0)) && v.resting && f.order == Slot(desk, i, 0)
    requires 0.0 < v.filled == f.size < Plan(desk, i, 1).value[0].size
    ensures Possible(START, c, DowntimeRun(desk, i, answers, v, f))
    ensures var w, id := Final(START, c, DowntimeRun(desk, i, answers, v, f)).world, Slot(desk, i, 0);
            var size := Plan(desk, i, 1).value[0].size;
            && id in w.rows && w.rows[id].size == size
            && w.rows[id].filled == (if size <= f.size + f.size then size else f.size + f.size) > v.filled
            && (w.rows[id].state.Filled? <==> f.size + f.size >= size)
  {
    var id := Slot(desk, i, 0);
    var s1 := SubmittedUnknown(c, desk, i, answers);
    var s2 := ReconciledOne(s1, c, id, v);
    FilledOnce(s2, c, f);
    var first, second := Turn(Submission(desk, i, 1, true, answers), None), Turn(Reconciliation(i.slug, [id], None, [v]), None);
    var third := Turn(FillBatch(i.slug, [f]), None);
    var s3 := Step(s2, c, third);
    TurnTo(s2, c, third, s3, []);
    TurnTo(s1, c, second, s2, [third] + []);
    TurnTo(START, c, first, s1, [second] + ([third] + []));
  }
}
