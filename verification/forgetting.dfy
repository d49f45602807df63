module Forgetting {
  // When a closed row can stand for an order that still works at the venue: exactly when, in any run.

  import Fills
  import opened Backend
  import opened Chains
  import opened Ids
  import opened Orders
  import opened Reconcile
  import opened Reprice
  import opened Runs
  import opened Submit
  import opened Sweep
  import opened Wrappers

  // An order left PENDING by a crash is expired or swept, a sweep's cancel of a working order is refused for good,
  // or a reconciliation is not shown a working order resting. Nothing else closes the row of a working order.

  /** The venue took the order on and has acknowledged no cancel of it. */
  predicate Working(w: World, id: OrderId) {
    id in w.accepted && id !in w.retired
  }

  /** Done with, and not because it filled. */
  predicate Closed(s: OrderState) {
    IsTerminal(s) && !s.Filled?
  }

  predicate Forgotten(w: World, id: OrderId) {
    id in w.rows && Closed(w.rows[id].state) && Working(w, id)
  }

  /** On record as never sent, and working. */
  predicate Unsettled(w: World, id: OrderId) {
    id in w.rows && w.rows[id].state.Pending? && Working(w, id)
  }

  // ── one effect ────────────────────────────────────────────────────────────

  predicate SavesRow(e: Effect, id: OrderId) {
    e.SaveRow? && e.row.id == id
  }

  predicate TakesOn(e: Effect, id: OrderId) {
    e.Place? && e.id == id && Reached(e.answer)
  }

  predicate Retires(e: Effect, id: OrderId) {
    e.Cancel? && e.id == id && e.reply.Acknowledged?
  }

  lemma EffectForgets(w: World, l: Limits, e: Effect, byFill: bool, id: OrderId)
    requires Inv(w, l) && Good(w, l, e, byFill)
    ensures Forgotten(Apply(w, e), id) <==>
              Forgotten(w, id) || (SavesRow(e, id) && id in w.rows && Closed(e.row.state) && Working(w, id))
  {
  }

  lemma EffectUnsettles(w: World, l: Limits, e: Effect, byFill: bool, id: OrderId)
    requires Inv(w, l) && Good(w, l, e, byFill)
    ensures Unsettled(Apply(w, e), id) <==> TakesOn(e, id) || (Unsettled(w, id) && !SavesRow(e, id))
  {
  }

  // ── lists of effects ──────────────────────────────────────────────────────

  lemma {:induction false} GoodAt(w: World, l: Limits, es: seq<Effect>, byFill: bool, i: nat)
    requires Sound(w, l, es, byFill) && i < |es|
    ensures Good(ApplyAll(w, es[..i]), l, es[i], byFill)
    decreases i
  {
    if i > 0 {
      GoodAt(Apply(w, es[0]), l, es[1..], byFill, i - 1);
      assert es[..i][1..] == es[1..][..i - 1];
    }
  }

  /** The world after `i + 1` effects, from the world after `i`. */
  lemma {:induction false} OneMore(w: World, l: Limits, es: seq<Effect>, byFill: bool, i: nat)
    requires Inv(w, l) && Sound(w, l, es, byFill) && i < |es|
    ensures var w1 := ApplyAll(w, es[..i]);
            Inv(w1, l) && Good(w1, l, es[i], byFill) && ApplyAll(w, es[..i + 1]) == Apply(w1, es[i])
  {
    SafeAtEveryCrash(w, l, es, byFill, i);
    GoodAt(w, l, es, byFill, i);
    ApplyAllLast(w, es[..i], es[i]);
    assert es[..i + 1] == es[..i] + [es[i]];
  }

  /** Every order taken on is recorded by the very next effect. */
  predicate Recorded(es: seq<Effect>) {
    forall i | 0 <= i < |es| && es[i].Place? && Reached(es[i].answer) :: i + 1 < |es| && SavesRow(es[i + 1], es[i].id)
  }

  /** The effect shows that the order does not work at the venue. */
  predicate LetsGo(e: Effect, id: OrderId) {
    Retires(e, id) || (e.Place? && e.id == id && !Reached(e.answer))
  }

  /** Every row is closed on the strength of the effect before. */
  predicate Mindful(es: seq<Effect>) {
    forall i | 0 <= i < |es| && es[i].SaveRow? && Closed(es[i].row.state) :: i > 0 && LetsGo(es[i - 1], es[i].row.id)
  }

  /** An order is left unsettled exactly by a cut just after it is taken on. */
  lemma {:induction false} CutUnsettles(w: World, l: Limits, es: seq<Effect>, byFill: bool, id: OrderId, n: nat)
    requires Inv(w, l) && Sound(w, l, es, byFill) && Recorded(es) && n <= |es|
    ensures Unsettled(ApplyAll(w, es[..n]), id) <==> (n > 0 && TakesOn(es[n - 1], id)) || (Unsettled(w, id) && Spares(es[..n], id))
  {
    if n > 0 {
      CutUnsettles(w, l, es, byFill, id, n - 1);
      OneMore(w, l, es, byFill, n - 1);
      EffectUnsettles(ApplyAll(w, es[..n - 1]), l, es[n - 1], byFill, id);
      assert es[..n] == es[..n - 1] + [es[n - 1]];
      if n > 1 && TakesOn(es[n - 2], id) { assert SavesRow(es[n - 2 + 1], id); }
      SparesMore(es[..n - 1], es[n - 1], id);
    }
  }

  lemma SparesMore(es: seq<Effect>, e: Effect, id: OrderId)
    ensures Spares(es + [e], id) <==> Spares(es, id) && !SavesRow(e, id)
  {
    if Spares(es + [e], id) {
      assert (es + [e])[|es|] == e;
      assert forall i | 0 <= i < |es| :: (es + [e])[i] == es[i];
    }
  }

  lemma {:induction false} MindfulForgetsNothing(w: World, l: Limits, es: seq<Effect>, byFill: bool, id: OrderId, n: nat)
    requires Inv(w, l) && Sound(w, l, es, byFill) && Mindful(es) && n <= |es|
    ensures Forgotten(ApplyAll(w, es[..n]), id) <==> Forgotten(w, id)
  {
    if n > 0 {
      MindfulForgetsNothing(w, l, es, byFill, id, n - 1);
      OneMore(w, l, es, byFill, n - 1);
      EffectForgets(ApplyAll(w, es[..n - 1]), l, es[n - 1], byFill, id);
      if SavesRow(es[n - 1], id) && Closed(es[n - 1].row.state) {
        OneMore(w, l, es, byFill, n - 2);
        assert LetsGo(es[n - 1 - 1], id);
      }
    }
  }

  lemma TidyConcat(a: seq<Effect>, b: seq<Effect>)
    requires Recorded(a) && Mindful(a) && Recorded(b) && Mindful(b)
    ensures Recorded(a + b) && Mindful(a + b)
  {
    var es := a + b;
    forall i | 0 <= i < |es| && es[i].Place? && Reached(es[i].answer)
      ensures i + 1 < |es| && SavesRow(es[i + 1], es[i].id)
    {
      if i >= |a| { assert es[i] == b[i - |a|]; }
    }
    forall i | 0 <= i < |es| && es[i].SaveRow? && Closed(es[i].row.state)
      ensures i > 0 && LetsGo(es[i - 1], es[i].row.id)
    {
      if i >= |a| { assert es[i] == b[i - |a|]; }
    }
  }

  // ── operations that forget nothing ────────────────────────────────────────

  lemma {:induction false} AttemptsTidy(row: Row, answers: Answers, n: nat)
    requires 1 <= n <= IMMEDIATE_RETRY_LIMIT && row.state.Pending?
    ensures Recorded(Attempts(row, answers, n)) && Mindful(Attempts(row, answers, n))
    decreases IMMEDIATE_RETRY_LIMIT - n
  {
    var sent := Place(row.id, answers(n));
    if Transient(answers, n) && n < IMMEDIATE_RETRY_LIMIT {
      AttemptsTidy(row, answers, n + 1);
      TidyConcat([sent], Attempts(row, answers, n + 1));
    } else {
      SettledTells(row, answers(n));
      assert Attempts(row, answers, n) == [sent, SaveRow(Settled(row, answers(n)))];
    }
  }

  lemma PlaceOneTidy(rows: map<OrderId, Row>, row: Row, answers: Answers)
    requires row.state.Pending?
    ensures Recorded(PlaceOneEffects(rows, row, answers)) && Mindful(PlaceOneEffects(rows, row, answers))
  {
    AttemptsTidy(row, answers, 1);
    TidyConcat([SaveRow(row)], Attempts(row, answers, 1));
  }

  lemma {:induction false} PlaceFirstTidy(w: World, rows: seq<Row>, answers: nat -> Answers, n: nat)
    requires n <= |rows| && forall k | 0 <= k < |rows| :: rows[k].state.Pending?
    ensures Recorded(PlaceFirst(w, rows, answers, n)) && Mindful(PlaceFirst(w, rows, answers, n))
  {
    if n > 0 {
      var es := PlaceFirst(w, rows, answers, n - 1);
      PlaceFirstTidy(w, rows, answers, n - 1);
      PlaceOneTidy(ApplyAll(w, es).rows, rows[n - 1], answers(n - 1));
      TidyConcat(es, PlaceOneEffects(ApplyAll(w, es).rows, rows[n - 1], answers(n - 1)));
    }
  }

  lemma RepriceTidy(l: Limits, patience: nat, passes: map<ChainKey, nat>, row: Row, v: Venue)
    ensures Recorded(RepriceOutcome(l, patience, passes, row, v).effects)
    ensures Mindful(RepriceOutcome(l, patience, passes, row, v).effects)
  {
    var t := Target(l, row.id.chain.offset, row.price, v.best, row.direction);
    if t.Some? {
      var next := Successor(row, t.value);
      SettledTells(next, v.place);
      TidyConcat([Cancel(row.id, v.cancel)], []);
      if v.cancel.Acknowledged? {
        TidyConcat([Cancel(row.id, v.cancel), SaveRow(Cancelling(row))], ReplaceEffects(next, v.place));
      }
    }
  }

  lemma {:induction false} RepriceAllTidy(w: World, l: Limits, patience: nat, passes: map<ChainKey, nat>, ids: seq<OrderId>, v: OrderId -> Venue)
    requires forall id | id in ids :: id in w.rows
    ensures Recorded(RepriceAll(w, l, patience, passes, ids, v).0) && Mindful(RepriceAll(w, l, patience, passes, ids, v).0)
    decreases |ids|
  {
    if ids != [] {
      var n := |ids| - 1;
      var before := RepriceAll(w, l, patience, passes, ids[..n], v);
      RepriceAllTidy(w, l, patience, passes, ids[..n], v);
      RepriceTidy(l, patience, before.1, w.rows[ids[n]], v(ids[n]));
      TidyConcat(before.0, RepriceOutcome(l, patience, before.1, w.rows[ids[n]], v(ids[n])).effects);
    }
  }

  lemma {:induction false} IngestTidy(w: World, slug: string, batch: seq<Fill>)
    ensures Recorded(Fills.IngestAll(w, slug, batch).effects) && Mindful(Fills.IngestAll(w, slug, batch).effects)
    decreases |batch|
  {
    if batch != [] {
      var s := Fills.IngestOne(w, slug, batch[0]);
      if !s.raised {
        IngestTidy(ApplyAll(w, s.effects), slug, batch[1..]);
        TidyConcat(s.effects, Fills.IngestAll(ApplyAll(w, s.effects), slug, batch[1..]).effects);
      }
    }
  }

  // ── operations that close rows on less ────────────────────────────────────

  /** Every save of the row `r.id` saves `r`. */
  predicate SavesOnly(es: seq<Effect>, r: Row) {
    forall i | 0 <= i < |es| && SavesRow(es[i], r.id) :: es[i].row == r
  }

  lemma {:induction false} SavedAsAgreed(w: World, es: seq<Effect>, r: Row)
    requires SavesOnly(es, r) && r.id in w.rows && SameTerms(w.rows[r.id], r)
    ensures var w' := ApplyAll(w, es); r.id in w'.rows && w'.rows[r.id] == if Spares(es, r.id) then w.rows[r.id] else r
    decreases |es|
  {
    if es != [] {
      var w1 := Apply(w, es[0]);
      assert SavesOnly(es[1..], r);
      SavedAsAgreed(w1, es[1..], r);
      assert [es[0]] + es[1..] == es;
      assert Spares(es, r.id) <==> Spares(es[1..], r.id) && !SavesRow(es[0], r.id);
    }
  }

  predicate SavesNotPlaces(es: seq<Effect>) {
    forall i | 0 <= i < |es| :: es[i].SaveRow? || es[i].Cancel?
  }

  /** What the list changes at the venue's end. */
  lemma {:induction false} VenueAfter(w: World, es: seq<Effect>, id: OrderId)
    requires SavesNotPlaces(es)
    ensures var w' := ApplyAll(w, es);
            && w'.accepted == w.accepted
            && (id in w'.retired <==> id in w.retired || exists i | 0 <= i < |es| :: Retires(es[i], id))
    decreases |es|
  {
    if es != [] {
      VenueAfter(Apply(w, es[0]), es[1..], id);
      assert forall i | 0 < i < |es| :: es[i] == es[1..][i - 1];
      if i :| 0 <= i < |es[1..]| && Retires(es[1..][i], id) { assert Retires(es[i + 1], id); }
    }
  }

  /** Cancels ask for this row as it stood, a save records the reply, and only a never-sent row is closed unasked. */
  predicate SweepsRight(es: seq<Effect>, row: Row, reply: CancelAnswer) {
    && SavesNotPlaces(es)
    && SavesOnly(es, Swept(row, reply))
    && (forall i | 0 <= i < |es| && es[i].Cancel? && es[i].id == row.id :: es[i].reply == reply && !row.state.Pending?)
    && (forall i | 0 <= i < |es| && SavesRow(es[i], row.id) && !row.state.Pending? :: i > 0 && es[i - 1] == Cancel(row.id, reply))
  }

  lemma SweepsRightConcat(a: seq<Effect>, b: seq<Effect>, row: Row, reply: CancelAnswer)
    requires SweepsRight(a, row, reply) && SweepsRight(b, row, reply)
    ensures SweepsRight(a + b, row, reply)
  {
    forall i | 0 <= i < |a + b| && SavesRow((a + b)[i], row.id) && !row.state.Pending?
      ensures i > 0 && (a + b)[i - 1] == Cancel(row.id, reply)
    {
      if i >= |a| { assert SavesRow(b[i - |a|], row.id); }
    }
  }

  lemma {:induction false} SweepShape(w: World, ids: seq<OrderId>, scope: Option<string>, a: Replies, id: OrderId)
    requires id in w.rows && w.rows[id].id == id && forall x | x in ids :: x in w.rows && w.rows[x].id == x
    ensures SweepsRight(SweepEffects(w, ids, scope, a), w.rows[id], a(id))
    decreases |ids|
  {
    if ids != [] {
      var n := |ids| - 1;
      SweepShape(w, ids[..n], scope, a, id);
      var one := if InScope(ids[n], scope) then CancelOneEffects(w.rows[ids[n]], a(ids[n])) else [];
      SweepsRightConcat(SweepEffects(w, ids[..n], scope, a), one, w.rows[id], a(id));
    }
  }

  /** No effect of the list concerns the order. */
  predicate PassesOver(es: seq<Effect>, id: OrderId) {
    SavesNotPlaces(es) && Spares(es, id) && forall i | 0 <= i < |es| :: !Retires(es[i], id)
  }

  lemma {:induction false} SweepPassesOver(w: World, ids: seq<OrderId>, scope: Option<string>, a: Replies, id: OrderId)
    requires id !in ids && forall x | x in ids :: x in w.rows && w.rows[x].id == x
    ensures PassesOver(SweepEffects(w, ids, scope, a), id)
    decreases |ids|
  {
    if ids != [] {
      SweepPassesOver(w, ids[..|ids| - 1], scope, a, id);
    }
  }

  /** What a sweep, cut anywhere, forgets of a live order. */
  lemma {:induction false} SweepForgets(w: World, es: seq<Effect>, row: Row, reply: CancelAnswer)
    requires SweepsRight(es, row, reply) && row.id in w.rows && w.rows[row.id] == row && IsLive(row.state)
    ensures Forgotten(ApplyAll(w, es), row.id) <==>
              !Spares(es, row.id) && Working(w, row.id) && (row.state.Pending? || (reply.NotAcknowledged? && Classify(reply.why).Fail?))
  {
    SavedAsAgreed(w, es, Swept(row, reply));
    VenueAfter(w, es, row.id);
    if !Spares(es, row.id) && !row.state.Pending? && reply.Acknowledged? {
      var i :| 0 <= i < |es| && SavesRow(es[i], row.id);
      assert Retires(es[i - 1], row.id);
    }
  }

  lemma {:induction false} SaveEachShape(w: World, ids: seq<OrderId>, rule: Rule, id: OrderId)
    requires Keyed(w.rows) && Lawful(w, ids, rule) && id in ids && rule(w.rows[id]).Some?
    ensures rule(w.rows[id]).value.id == id && SavesOnly(SaveEach(w, ids, rule), rule(w.rows[id]).value)
    decreases |ids|
  {
    var n := |ids| - 1;
    if ids[n] == id {
      SaveEachSpares(w, ids[..n], rule, id);
    } else {
      assert ids == ids[..n] + [ids[n]];
      SaveEachShape(w, ids[..n], rule, id);
    }
  }

  lemma {:induction false} SaveEachUnruled(w: World, ids: seq<OrderId>, rule: Rule, id: OrderId)
    requires Keyed(w.rows) && Lawful(w, ids, rule) && id in w.rows && rule(w.rows[id]).None?
    ensures Spares(SaveEach(w, ids, rule), id)
    decreases |ids|
  {
    if ids != [] {
      SaveEachUnruled(w, ids[..|ids| - 1], rule, id);
    }
  }

  /** What such a pass, cut anywhere, forgets. */
  lemma {:induction false} SaveEachForgets(w: World, ids: seq<OrderId>, rule: Rule, id: OrderId, n: nat)
    requires Keyed(w.rows) && Lawful(w, ids, rule) && id in w.rows && n <= |SaveEach(w, ids, rule)|
    ensures var es := SaveEach(w, ids, rule)[..n];
            && (!Spares(es, id) ==> id in ids && rule(w.rows[id]).Some?)
            && (Forgotten(ApplyAll(w, es), id) <==>
                  if Spares(es, id) then Forgotten(w, id) else Closed(rule(w.rows[id]).value.state) && Working(w, id))
  {
    var es := SaveEach(w, ids, rule)[..n];
    if id !in ids { SaveEachSpares(w, ids, rule, id); }
    else if rule(w.rows[id]).Some? { SaveEachShape(w, ids, rule, id); }
    else { SaveEachUnruled(w, ids, rule, id); }
    SaveEachNeverPlaces(w, ids, rule);
    PassRetiresNone(w, ids, rule, id);
    assert forall i | 0 <= i < |es| :: es[i] == SaveEach(w, ids, rule)[i];
    VenueAfter(w, es, id);
    if Spares(es, id) {
      SparedRowKept(w, es, id);
    } else {
      SavedAsAgreed(w, es, rule(w.rows[id]).value);
    }
  }

  // ── a turn of a run ───────────────────────────────────────────────────────

  /** The effects of the turn that happened before its crash, if it has one. */
  function Happened(s: State, c: Config, t: Turn): seq<Effect>
    requires Listed(s, t.event)
  {
    var es := EffectsOf(s, c, t.event);
    if t.cut.Some? && t.cut.value < |es| then es[..t.cut.value] else es
  }

  /** The crash falls between the venue taking the order on and the save that follows. */
  predicate CutAfterPlacing(s: State, c: Config, t: Turn, id: OrderId)
    requires Listed(s, t.event)
  {
    var es := EffectsOf(s, c, t.event);
    t.cut.Some? && 0 < t.cut.value < |es| && TakesOn(es[t.cut.value - 1], id)
  }

  /** Left PENDING by such a crash, and not written since. */
  predicate LeftAfter(s: State, c: Config, t: Turn, id: OrderId, left: bool)
    requires Listed(s, t.event)
  {
    CutAfterPlacing(s, c, t, id) || (left && Spares(Happened(s, c, t), id))
  }

  /** The listing does not show the order resting, and what it shows does not fill it. */
  predicate NotShown(row: Row, listing: seq<VenueOrder>) {
    match Lookup(listing, row.id)
    case None => !(row.filled >= row.size && row.size > 0.0)
    case Some(o) => !o.resting && o.filled < row.size
  }

  /**
   The turn writes the order, which works at the venue, and does so by expiring or sweeping it as one
   never sent, by a sweep whose cancel was refused for good, or by a reconciliation not shown it resting.
   */
  predicate Forgets(s: State, c: Config, t: Turn, id: OrderId, left: bool)
    requires Listed(s, t.event)
  {
    && id in s.world.rows
    && !Spares(Happened(s, c, t), id)
    && match t.event
       case Expiry(_, _) => left
       case SweepPass(_, _, _, replies) => left || (Working(s.world, id) && replies(id).NotAcknowledged? && Classify(replies(id).why).Fail?)
       case Reconciliation(_, _, _, listing) => Working(s.world, id) && NotShown(s.world.rows[id], listing)
       case _ => false
  }

  lemma EventRecorded(s: State, c: Config, e: Event)
    requires Inv(s.world, c.limits) && Enabled(s, c, e) && Listed(s, e)
    ensures Recorded(EffectsOf(s, c, e))
    ensures !e.SweepPass? && !e.Reconciliation? && !e.Expiry? ==> Mindful(EffectsOf(s, c, e))
  {
    var w := s.world;
    match e
    case Submission(desk, intent, count, active, answers) =>
      if SubmitEffects(w, desk, intent, count, active, answers).Ok? {
        PlaceFirstTidy(w, Plan(desk, intent, count).value, answers, |Plan(desk, intent, count).value|);
      }
    case RepricePass(_, _, ids, venue) => RepriceAllTidy(w, c.limits, c.patience, s.passes, ids, venue);
    case SweepPass(_, ids, scope, replies) => SweepNeverPlaces(w, ids, scope, replies);
    case FillBatch(slug, batch) => IngestTidy(w, slug, batch);
    case Reconciliation(_, ids, scope, listing) => SaveEachNeverPlaces(w, ids, ReconcileRule(scope, listing));
    case Expiry(_, ids) => SaveEachNeverPlaces(w, ids, ExpireRule());
  }

  lemma {:induction false} SweepNeverPlaces(w: World, ids: seq<OrderId>, scope: Option<string>, a: Replies)
    requires forall id | id in ids :: id in w.rows
    ensures SavesNotPlaces(SweepEffects(w, ids, scope, a))
    decreases |ids|
  {
    if ids != [] {
      SweepNeverPlaces(w, ids[..|ids| - 1], scope, a);
    }
  }

  lemma {:induction false} SaveEachNeverPlaces(w: World, ids: seq<OrderId>, rule: Rule)
    requires forall id | id in ids :: id in w.rows
    ensures SavesNotPlaces(SaveEach(w, ids, rule))
    decreases |ids|
  {
    if ids != [] {
      SaveEachNeverPlaces(w, ids[..|ids| - 1], rule);
    }
  }

  lemma UnlistedKept(w: World, es: seq<Effect>, id: OrderId)
    requires PassesOver(es, id)
    ensures Forgotten(ApplyAll(w, es), id) <==> Forgotten(w, id)
  {
    SparedRowKept(w, es, id);
    VenueAfter(w, es, id);
  }

  lemma SweepTurnForgets(s: State, c: Config, t: Turn, id: OrderId)
    requires Inv(s.world, c.limits) && t.event.SweepPass? && Enabled(s, c, t.event) && Listed(s, t.event) && id in s.world.rows
    ensures Forgotten(ApplyAll(s.world, Happened(s, c, t)), id) <==> Forgotten(s.world, id) || Forgets(s, c, t, id, Unsettled(s.world, id))
  {
    var w, es, n := s.world, EffectsOf(s, c, t.event), |Happened(s, c, t)|;
    assert Happened(s, c, t) == es[..n];
    var ids, a := t.event.ids, t.event.replies;
    assert forall x | x in ids :: x in IdsOf(w.rows, t.event.slug, true) && RowOk(x, w.rows[x]);
    assert RowOk(id, w.rows[id]);
    if id in ids {
      SweepShape(w, ids, t.event.scope, a, id);
      SweepForgets(w, es[..n], w.rows[id], a(id));
    } else {
      SweepPassesOver(w, ids, t.event.scope, a, id);
      assert PassesOver(es[..n], id);
      UnlistedKept(w, es[..n], id);
    }
  }

  lemma NotShownCloses(row: Row, listing: seq<VenueOrder>)
    ensures Closed(Resolved(row, Lookup(listing, row.id)).state) <==> NotShown(row, listing)
  {
  }

  lemma ReconcileTurnForgets(s: State, c: Config, t: Turn, id: OrderId)
    requires Inv(s.world, c.limits) && t.event.Reconciliation? && Enabled(s, c, t.event) && Listed(s, t.event) && id in s.world.rows
    ensures Forgotten(ApplyAll(s.world, Happened(s, c, t)), id) <==> Forgotten(s.world, id) || Forgets(s, c, t, id, Unsettled(s.world, id))
  {
    var w, es, e := s.world, EffectsOf(s, c, t.event), t.event;
    assert Happened(s, c, t) == es[..|Happened(s, c, t)|];
    assert RowOk(id, w.rows[id]);
    NotShownCloses(w.rows[id], e.listing);
    ReconcileLawful(w, c.limits, e.slug, e.ids, e.scope, e.listing);
    SaveEachForgets(w, e.ids, ReconcileRule(e.scope, e.listing), id, |Happened(s, c, t)|);
  }

  lemma ExpiryTurnForgets(s: State, c: Config, t: Turn, id: OrderId)
    requires Inv(s.world, c.limits) && t.event.Expiry? && Enabled(s, c, t.event) && Listed(s, t.event) && id in s.world.rows
    ensures Forgotten(ApplyAll(s.world, Happened(s, c, t)), id) <==> Forgotten(s.world, id) || Forgets(s, c, t, id, Unsettled(s.world, id))
  {
    var w, es, e := s.world, EffectsOf(s, c, t.event), t.event;
    assert Happened(s, c, t) == es[..|Happened(s, c, t)|];
    ExpireLawful(w, c.limits, e.slug, e.ids);
    SaveEachForgets(w, e.ids, ExpireRule(), id, |Happened(s, c, t)|);
  }

  /** What one turn forgets, and what it leaves unsettled. */
  lemma TurnForgets(s: State, c: Config, t: Turn, id: OrderId)
    requires Inv(s.world, c.limits) && Enabled(s, c, t.event) && Listed(s, t.event)
    ensures Forgotten(ApplyAll(s.world, Happened(s, c, t)), id) <==> Forgotten(s.world, id) || Forgets(s, c, t, id, Unsettled(s.world, id))
    ensures Unsettled(ApplyAll(s.world, Happened(s, c, t)), id) <==> LeftAfter(s, c, t, id, Unsettled(s.world, id))
  {
    var es, n := EffectsOf(s, c, t.event), |Happened(s, c, t)|;
    assert Happened(s, c, t) == es[..n];
    EventSound(s, c, t.event);
    EventRecorded(s, c, t.event);
    CutUnsettles(s.world, c.limits, es, ByFill(t.event), id, n);
    if t.event.SweepPass? || t.event.Reconciliation? || t.event.Expiry? {
      if id in s.world.rows {
        if t.event.SweepPass? { SweepTurnForgets(s, c, t, id); }
        if t.event.Reconciliation? { ReconcileTurnForgets(s, c, t, id); }
        if t.event.Expiry? { ExpiryTurnForgets(s, c, t, id); }
      } else {
        StillUnknown(s, c, t, id);
      }
    } else {
      MindfulForgetsNothing(s.world, c.limits, es, ByFill(t.event), id, n);
    }
  }

  /** A sweep, a reconciliation and an expiry write no row that is not there. */
  lemma StillUnknown(s: State, c: Config, t: Turn, id: OrderId)
    requires Inv(s.world, c.limits) && Enabled(s, c, t.event) && Listed(s, t.event) && id !in s.world.rows
    requires t.event.SweepPass? || t.event.Reconciliation? || t.event.Expiry?
    ensures !Forgotten(ApplyAll(s.world, Happened(s, c, t)), id)
  {
    var es := EffectsOf(s, c, t.event);
    match t.event {
      case SweepPass(_, ids, scope, replies) => SweepNeverPlaces(s.world, ids, scope, replies);
      case Reconciliation(_, ids, scope, listing) => SaveEachNeverPlaces(s.world, ids, ReconcileRule(scope, listing));
      case Expiry(_, ids) => SaveEachNeverPlaces(s.world, ids, ExpireRule());
    }
    assert forall i | 0 <= i < |Happened(s, c, t)| :: Happened(s, c, t)[i] == es[i];
    VenueAfter(s.world, Happened(s, c, t), id);
  }

  // ── the restart ───────────────────────────────────────────────────────────

  /** What such a pass leaves of the row, and of the venue's side. */
  lemma {:induction false} PassLeaves(w: World, ids: seq<OrderId>, rule: Rule, id: OrderId)
    requires Keyed(w.rows) && Lawful(w, ids, rule)
    ensures var w' := ApplyAll(w, SaveEach(w, ids, rule));
            && (id in w'.rows <==> id in w.rows)
            && (id in w.rows ==> w'.rows[id] == if id in ids && rule(w.rows[id]).Some? then rule(w.rows[id]).value else w.rows[id])
            && (Working(w', id) <==> Working(w, id))
  {
    SaveEachNeverPlaces(w, ids, rule);
    if id in w.rows {
      SaveEachLeaves(w, ids, rule, id);
    } else {
      SaveEachSpares(w, ids, rule, id);
      SparedRowKept(w, SaveEach(w, ids, rule), id);
    }
    PassRetiresNone(w, ids, rule, id);
    VenueAfter(w, SaveEach(w, ids, rule), id);
  }

  lemma {:induction false} PassRetiresNone(w: World, ids: seq<OrderId>, rule: Rule, id: OrderId)
    requires forall id | id in ids :: id in w.rows
    ensures forall i | 0 <= i < |SaveEach(w, ids, rule)| :: !Retires(SaveEach(w, ids, rule)[i], id)
    decreases |ids|
  {
    if ids != [] {
      PassRetiresNone(w, ids[..|ids| - 1], rule, id);
    }
  }

  /**
   Recovery takes a PENDING row for one the venue does not hold. It is wrong about a row exactly when
   the row was left unsettled: afterwards it is EXPIRED, and the order works.
   */
  lemma {:induction false} ExpiryForgetsExactly(w: World, l: Limits, slug: string, ids: seq<OrderId>, id: OrderId)
    requires Inv(w, l) && Enumerates(ids, IdsOf(w.rows, slug, false))
    requires id in w.rows && id.chain.slug == slug && !w.rows[id].state.Expired?
    ensures Lawful(w, ids, ExpireRule())
    ensures var w' := ApplyAll(w, SaveEach(w, ids, ExpireRule()));
            id in w'.rows && (w'.rows[id].state.Expired? && Working(w', id) <==> Unsettled(w, id))
  {
    ExpireLawful(w, l, slug, ids);
    PassLeaves(w, ids, ExpireRule(), id);
    assert id in IdsOf(w.rows, slug, false);
  }

  predicate ShownResting(listing: seq<VenueOrder>, id: OrderId) {
    exists i | 0 <= i < |listing| :: listing[i].client == Ours(id) && listing[i].resting
  }

  /** The listing shows resting exactly the market's orders that work and have not been `executed` in full. */
  ghost predicate Truthful(w: World, executed: set<OrderId>, slug: string, listing: seq<VenueOrder>) {
    forall id: OrderId | id.chain.slug == slug :: ShownResting(listing, id) <==> Working(w, id) && id !in executed
  }

  lemma {:induction false} ReconcileKeepsPendingRow(w: World, ids: seq<OrderId>, listing: seq<VenueOrder>, id: OrderId)
    requires Keyed(w.rows) && Lawful(w, ids, ReconcileRule(None, listing))
    ensures var w1 := ApplyAll(w, SaveEach(w, ids, ReconcileRule(None, listing)));
            && (id in w1.rows <==> id in w.rows)
            && (Working(w1, id) <==> Working(w, id))
            && (id in w.rows ==>
                  && (w1.rows[id].state.Pending? <==> w.rows[id].state.Pending?)
                  && (w1.rows[id].state.Expired? <==> w.rows[id].state.Expired?))
  {
    PassLeaves(w, ids, ReconcileRule(None, listing), id);
  }

  lemma {:induction false} ReconcileKeepsPending(w: World, l: Limits, slug: string, ids: seq<OrderId>, listing: seq<VenueOrder>)
    requires Inv(w, l) && Enumerates(ids, IdsOf(w.rows, slug, false)) && Sane(listing)
    ensures Lawful(w, ids, ReconcileRule(None, listing))
    ensures var w1 := ApplyAll(w, SaveEach(w, ids, ReconcileRule(None, listing)));
            Inv(w1, l) && IdsOf(w1.rows, slug, false) == IdsOf(w.rows, slug, false)
  {
    ReconcileLawful(w, l, slug, ids, None, listing);
    var es := SaveEach(w, ids, ReconcileRule(None, listing));
    SaveEachSound(w, l, ids, ReconcileRule(None, listing));
    InvAfter(w, l, es, false);
    forall id
      ensures id in ApplyAll(w, es).rows <==> id in w.rows
    {
      ReconcileKeepsPendingRow(w, ids, listing, id);
    }
  }

  /**
   A restart, reconciling against a truthful listing and then expiring, loses a resting order exactly
   when that listing shows one resting whose row is PENDING: the entry reconciliation passes over.
   */
  lemma RestartForgetsExactly(w: World, l: Limits, slug: string, ids: seq<OrderId>, listing: seq<VenueOrder>, executed: set<OrderId>,
                              later: seq<OrderId>, id: OrderId)
    requires Inv(w, l) && Enumerates(ids, IdsOf(w.rows, slug, false)) && Enumerates(later, IdsOf(w.rows, slug, false))
    requires Sane(listing) && Truthful(w, executed, slug, listing)
    requires id in w.rows && id.chain.slug == slug && !w.rows[id].state.Expired?
    ensures Lawful(w, ids, ReconcileRule(None, listing))
    ensures var w1 := ApplyAll(w, SaveEach(w, ids, ReconcileRule(None, listing)));
            && Lawful(w1, later, ExpireRule())
            && var w2 := ApplyAll(w1, SaveEach(w1, later, ExpireRule()));
               && id in w2.rows
               && (w2.rows[id].state.Expired? && Working(w2, id) && id !in executed <==>
                     w.rows[id].state.Pending? && ShownResting(listing, id))
  {
    ReconcileKeepsPending(w, l, slug, ids, listing);
    var w1 := ApplyAll(w, SaveEach(w, ids, ReconcileRule(None, listing)));
    ReconcileKeepsPendingRow(w, ids, listing, id);
    ExpiryForgetsExactly(w1, l, slug, later, id);
    PassLeaves(w1, later, ExpireRule(), id);
  }

  // ── every run ─────────────────────────────────────────────────────────────

  /** Some turn of the run forgets the order. */
  ghost predicate ForgetsAlong(s: State, c: Config, run: seq<Turn>, id: OrderId, left: bool)
    requires Possible(s, c, run)
    decreases |run|
  {
    && run != []
    && (Forgets(s, c, run[0], id, left)
        || ForgetsAlong(Runs.Step(s, c, run[0]), c, run[1..], id, LeftAfter(s, c, run[0], id, left)))
  }

  /** Left PENDING by a crash after placing, in some turn of the run, and not written by a later one. */
  ghost predicate LeftAlong(s: State, c: Config, run: seq<Turn>, id: OrderId, left: bool)
    requires Possible(s, c, run)
    decreases |run|
  {
    if run == [] then left else LeftAlong(Runs.Step(s, c, run[0]), c, run[1..], id, LeftAfter(s, c, run[0], id, left))
  }

  lemma {:induction false} RunForgets(s: State, c: Config, run: seq<Turn>, id: OrderId)
    requires StateOk(s, c) && Possible(s, c, run)
    ensures Forgotten(Final(s, c, run).world, id) <==> Forgotten(s.world, id) || ForgetsAlong(s, c, run, id, Unsettled(s.world, id))
    ensures Unsettled(Final(s, c, run).world, id) <==> LeftAlong(s, c, run, id, Unsettled(s.world, id))
    decreases |run|
  {
    if run != [] {
      var next := Runs.Step(s, c, run[0]);
      StepOk(s, c, run[0]);
      TurnForgets(s, c, run[0], id);
      assert next.world == ApplyAll(s.world, Happened(s, c, run[0]));
      RunForgets(next, c, run[1..], id);
    }
  }

  /**
   After any run, a closed row that did not fill stands for an order still working at the venue exactly
   when some turn wrote it so: an expiry or a sweep of an order left PENDING by a crash between the
   venue taking it on and the save, a sweep whose cancel of it was refused for good, or a
   reconciliation whose listing did not show it resting.
   */
  lemma ForgottenExactlyWhen(c: Config, run: seq<Turn>, id: OrderId)
    requires Possible(START, c, run)
    ensures Forgotten(Final(START, c, run).world, id) <==> ForgetsAlong(START, c, run, id, false)
  {
    RunForgets(START, c, run, id);
  }

  /** After any run, an order on record as never sent works at the venue exactly when such a crash left it so. */
  lemma UnsettledExactlyWhen(c: Config, run: seq<Turn>, id: OrderId)
    requires Possible(START, c, run)
    ensures Unsettled(Final(START, c, run).world, id) <==> LeftAlong(START, c, run, id, false)
  {
    RunForgets(START, c, run, id);
  }
}
