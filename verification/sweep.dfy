/** The settlement sweep: retract everything that may still rest; never claim a cancel nobody acknowledged. */
module Sweep {
  import opened Ids
  import opened Orders
  import opened Backend
  import opened Chains
  import opened Wrappers

  type Replies = OrderId -> CancelAnswer

  function CancelOneEffects(row: Row, a: CancelAnswer): seq<Effect> {
    if row.state.Pending? then [SaveRow(Moved(row, Expired, "swept before submission"))]
    else if a.Acknowledged? then [Cancel(row.id, a), SaveRow(Moved(row, Cancelled, "settlement sweep"))]
    else if Classify(a.why).Fail? then [Cancel(row.id, a), SaveRow(Moved(row, Cancelled, a.why.text))]
    else if row.state.Indeterminate? then [Cancel(row.id, a)]
    else [Cancel(row.id, a), SaveRow(Moved(row, Indeterminate, a.why.text))]
  }

  /** Whether the order reached a definite state. */
  predicate Retracted(row: Row, a: CancelAnswer) {
    row.state.Pending? || a.Acknowledged? || Classify(a.why).Fail?
  }

  predicate InScope(id: OrderId, engine: Option<string>) {
    engine.None? || id.chain.engine == engine.value
  }

  function SweepEffects(w: World, ids: seq<OrderId>, engine: Option<string>, a: Replies): seq<Effect>
    requires forall id | id in ids :: id in w.rows
    decreases |ids|
  {
    if ids == [] then []
    else
      var n := |ids| - 1;
      SweepEffects(w, ids[..n], engine, a)
      + if InScope(ids[n], engine) then CancelOneEffects(w.rows[ids[n]], a(ids[n])) else []
  }

  /** The ids of one verdict, in sweep order. */
  function Report(w: World, ids: seq<OrderId>, engine: Option<string>, a: Replies, retracted: bool): seq<OrderId>
    requires forall id | id in ids :: id in w.rows
    decreases |ids|
  {
    if ids == [] then []
    else
      var n := |ids| - 1;
      Report(w, ids[..n], engine, a, retracted)
      + if InScope(ids[n], engine) && Retracted(w.rows[ids[n]], a(ids[n])) == retracted then [ids[n]] else []
  }

  lemma ReportNext(w: World, ids: seq<OrderId>, k: nat, engine: Option<string>, a: Replies, retracted: bool)
    requires k < |ids| && forall id | id in ids :: id in w.rows
    ensures Report(w, ids[..k + 1], engine, a, retracted) ==
              Report(w, ids[..k], engine, a, retracted)
              + if InScope(ids[k], engine) && Retracted(w.rows[ids[k]], a(ids[k])) == retracted then [ids[k]] else []
  {
    assert ids[..k + 1][..k] == ids[..k] && ids[k] in ids;
  }

  predicate Sweepable(w: World, ids: seq<OrderId>) {
    && (forall id | id in ids :: id in w.rows && w.rows[id].id == id && IsLive(w.rows[id].state))
    && NoRepeats(ids)
  }

  lemma {:induction false} SweepSpares(w: World, ids: seq<OrderId>, engine: Option<string>, a: Replies, id: OrderId)
    requires Sweepable(w, ids) && id !in ids
    ensures Spares(SweepEffects(w, ids, engine, a), id)
    decreases |ids|
  {
    if ids != [] {
      SweepSpares(w, ids[..|ids| - 1], engine, a, id);
    }
  }

  lemma CancelOneSound(w: World, l: Limits, row: Row, a: CancelAnswer)
    requires Inv(w, l) && row.id in w.rows && w.rows[row.id] == row && IsLive(row.state)
    ensures Sound(w, l, CancelOneEffects(row, a), false)
  {
    var es := CancelOneEffects(row, a);
    if |es| == 2 {
      SoundTwo(w, l, es[0], es[1], false);
      assert es == [es[0], es[1]];
    } else {
      assert es[1..] == [];
    }
  }

  /** One order more, after effects that spared it. */
  lemma SweepMoreSound(w: World, l: Limits, es: seq<Effect>, row: Row, a: CancelAnswer, last: seq<Effect>)
    requires Inv(w, l) && Sound(w, l, es, false) && Spares(es, row.id)
    requires row.id in w.rows && w.rows[row.id] == row && IsLive(row.state)
    requires last == [] || last == CancelOneEffects(row, a)
    ensures Sound(w, l, es + last, false)
  {
    if last == [] {
      assert es + last == es;
    } else {
      InvAfter(w, l, es, false);
      SparedRowKept(w, es, row.id);
      CancelOneSound(ApplyAll(w, es), l, row, a);
      SoundConcat(w, l, es, last, false);
    }
  }

  /** A sweep keeps every chain safe whatever the venue answers, at every crash point. */
  lemma {:induction false} SweepSound(w: World, l: Limits, ids: seq<OrderId>, engine: Option<string>, a: Replies)
    requires Inv(w, l) && Sweepable(w, ids)
    ensures Sound(w, l, SweepEffects(w, ids, engine, a), false)
    decreases |ids|
  {
    if ids != [] {
      var n := |ids| - 1;
      var row := w.rows[ids[n]];
      SweepSound(w, l, ids[..n], engine, a);
      SweepSpares(w, ids[..n], engine, a, ids[n]);
      SweepMoreSound(w, l, SweepEffects(w, ids[..n], engine, a), row, a(ids[n]),
                     if InScope(ids[n], engine) then CancelOneEffects(row, a(ids[n])) else []);
    }
  }

  /** What the sweep leaves of a row it visits, and of one it does not. */
  function Swept(row: Row, a: CancelAnswer): Row {
    if row.state.Pending? then Moved(row, Expired, "swept before submission")
    else if a.Acknowledged? then Moved(row, Cancelled, "settlement sweep")
    else if Classify(a.why).Fail? then Moved(row, Cancelled, a.why.text)
    else if row.state.Indeterminate? then row
    else Moved(row, Indeterminate, a.why.text)
  }

  lemma {:induction false} CancelOneLeaves(w: World, row: Row, a: CancelAnswer)
    requires row.id in w.rows && w.rows[row.id] == row
    ensures ApplyAll(w, CancelOneEffects(row, a)).rows == w.rows[row.id := Swept(row, a)]
  {
    var es := CancelOneEffects(row, a);
    if |es| == 2 {
      Two([], w, es[0], es[1]);
      assert es == [es[0], es[1]];
    } else {
      ApplyAllOne(w, es[0]);
      assert es == [es[0]];
    }
  }

  /** An order that is definitely retracted after it was submitted is CANCELLED, and no other row moves. */
  lemma RetractedCancels(w: World, row: Row, a: CancelAnswer, w': World)
    requires row.id in w.rows && w.rows[row.id] == row && !row.state.Pending? && Retracted(row, a)
    requires w' == ApplyAll(w, CancelOneEffects(row, a))
    ensures row.id in w'.rows && w'.rows[row.id].state.Cancelled?
    ensures forall k | k in w.rows && k != row.id :: k in w'.rows && w'.rows[k] == w.rows[k]
  {
    CancelOneLeaves(w, row, a);
  }

  lemma {:induction false} SweepLeaves(w: World, ids: seq<OrderId>, engine: Option<string>, a: Replies, id: OrderId)
    requires Sweepable(w, ids) && id in w.rows
    ensures var w' := ApplyAll(w, SweepEffects(w, ids, engine, a));
            && id in w'.rows
            && w'.rows[id] == if id in ids && InScope(id, engine) then Swept(w.rows[id], a(id)) else w.rows[id]
    decreases |ids|
  {
    if id !in ids {
      SweepSpares(w, ids, engine, a, id);
      SparedRowKept(w, SweepEffects(w, ids, engine, a), id);
    } else {
      var n := |ids| - 1;
      assert ids == ids[..n] + [ids[n]];
      if ids[n] == id {
        SweepSpares(w, ids[..n], engine, a, id);
      } else {
        SweepLeaves(w, ids[..n], engine, a, id);
      }
      SweepLastLeaves(w, ids, engine, a, id);
    }
  }

  /** The last order visited, after the ones before it. */
  lemma SweepLastLeaves(w: World, ids: seq<OrderId>, engine: Option<string>, a: Replies, id: OrderId)
    requires ids != [] && id in w.rows && w.rows[id].id == id
    requires forall x | x in ids :: x in w.rows && w.rows[x].id == x
    requires var n := |ids| - 1;
             if ids[n] == id then Spares(SweepEffects(w, ids[..n], engine, a), id)
             else
               var w1 := ApplyAll(w, SweepEffects(w, ids[..n], engine, a));
               id in w1.rows && w1.rows[id] == if InScope(id, engine) then Swept(w.rows[id], a(id)) else w.rows[id]
    ensures var w' := ApplyAll(w, SweepEffects(w, ids, engine, a));
            id in w'.rows && w'.rows[id] == if InScope(id, engine) then Swept(w.rows[id], a(id)) else w.rows[id]
  {
    var n := |ids| - 1;
    var es := SweepEffects(w, ids[..n], engine, a);
    var last := if InScope(ids[n], engine) then CancelOneEffects(w.rows[ids[n]], a(ids[n])) else [];
    ApplyAllConcat(w, es, last);
    if ids[n] == id {
      SparedRowKept(w, es, id);
      if InScope(id, engine) {
        CancelOneLeaves(ApplyAll(w, es), w.rows[id], a(id));
      }
    } else {
      SparedRowKept(ApplyAll(w, es), last, id);
    }
  }

  /** The cancel reached its end: the order was never sent, the venue took the cancel, or it refused it for good. */
  predicate Ended(row: Row, a: CancelAnswer) {
    row.state == Pending || a == Acknowledged || a.why.PostOnlyWouldCross? || a.why.OtherArcError?
  }

  lemma {:induction false} ReportMembers(w: World, ids: seq<OrderId>, engine: Option<string>, a: Replies, retracted: bool, id: OrderId)
    requires forall x | x in ids :: x in w.rows
    ensures id in Report(w, ids, engine, a, retracted) <==>
              id in ids && (engine.None? || engine == Some(id.chain.engine)) && Ended(w.rows[id], a(id)) == retracted
    decreases |ids|
  {
    if ids != [] {
      var n := |ids| - 1;
      ReportMembers(w, ids[..n], engine, a, retracted, id);
      assert ids == ids[..n] + [ids[n]];
    }
  }

  /**
   After a full sweep an in-scope order of the market is live exactly when the report lists it as
   unknown. What was live is EXPIRED if it was never sent, CANCELLED if the cancel was taken or refused
   for good, and INDETERMINATE otherwise; every other order, and every one out of scope, is as it was.
   */
  lemma {:induction false} SweepLeavesOnlyUnknown(w: World, l: Limits, slug: string, ids: seq<OrderId>, engine: Option<string>, a: Replies, id: OrderId)
    requires Inv(w, l) && Enumerates(ids, IdsOf(w.rows, slug, true)) && id in w.rows
    ensures var w' := ApplyAll(w, SweepEffects(w, ids, engine, a));
            && id in w'.rows
            && if id.chain.slug == slug && IsLive(w.rows[id].state) && (engine.None? || engine == Some(id.chain.engine)) then
                 && (IsLive(w'.rows[id].state) <==> id in Report(w, ids, engine, a, false))
                 && w'.rows[id].state == (if w.rows[id].state == Pending then Expired else if Ended(w.rows[id], a(id)) then Cancelled else Indeterminate)
                 && w'.rows[id] == w.rows[id].(state := w'.rows[id].state, reason := w'.rows[id].reason)
               else w'.rows[id] == w.rows[id] && id !in Report(w, ids, engine, a, false)
  {
    SweepLeaves(w, ids, engine, a, id);
    ReportMembers(w, ids, engine, a, false, id);
    assert id in ids <==> id in IdsOf(w.rows, slug, true);
  }

  // ── the imperative form ───────────────────────────────────────────────────

  class Sweeper {
    const backend: Backend

    constructor (backend: Backend)
      ensures this.backend == backend
    {
      this.backend := backend;
    }

    method CancelOne(order: Order, a: CancelAnswer) returns (retracted: bool)
      requires IsLive(order.state)
      modifies backend, order
      ensures backend.Did(CancelOneEffects(old(order.AsRow()), a))
      ensures retracted == Retracted(old(order.AsRow()), a)
    {
      ghost var log, w, row := backend.journal, backend.State(), order.AsRow();
      var raised := false;
      if order.state == Pending {
        raised := order.Transition(Expired, "swept before submission");
        assert !raised;
        backend.SaveOrder(order.AsRow());
        ApplyAllOne(w, SaveRow(order.AsRow()));
        return true;
      }
      backend.Cancel(order.id, a);
      if a.NotAcknowledged? && !Classify(a.why).Fail? {
        if order.state != Indeterminate {
          raised := order.Transition(Indeterminate, a.why.text);
          assert !raised;
          backend.SaveOrder(order.AsRow());
          Two(log, w, Cancel(row.id, a), SaveRow(order.AsRow()));
        } else {
          ApplyAllOne(w, Cancel(row.id, a));
        }
        return false;
      }
      raised := order.Transition(Cancelled, if a.Acknowledged? then "settlement sweep" else a.why.text);
      assert !raised;
      backend.SaveOrder(order.AsRow());
      Two(log, w, Cancel(row.id, a), SaveRow(order.AsRow()));
      return true;
    }

    /** The next order of the sweep, after the ones before it. */
    method SweepNext(row: Row, ids: seq<OrderId>, k: nat, engine: Option<string>, a: Replies, ghost log: seq<Effect>, ghost w: World)
      returns (verdict: Option<bool>)
      requires k < |ids| && Sweepable(w, ids) && row == w.rows[ids[k]]
      requires backend.Since(log, w, SweepEffects(w, ids[..k], engine, a))
      modifies backend
      ensures backend.Since(log, w, SweepEffects(w, ids[..k + 1], engine, a))
      ensures verdict == if InScope(ids[k], engine) then Some(Retracted(row, a(ids[k]))) else None
    {
      ghost var done := SweepEffects(w, ids[..k], engine, a);
      assert ids[..k + 1][..k] == ids[..k] && ids[k] in ids;
      if engine.Some? && ids[k].chain.engine != engine.value {
        assert SweepEffects(w, ids[..k + 1], engine, a) == done + [];
        assert done + [] == done;
        return None;
      }
      Then(log, w, done, CancelOneEffects(row, a(ids[k])));
      var order := new Order(row);
      var retracted := CancelOne(order, a(ids[k]));
      return Some(retracted);
    }

    /** `engine` None is the market-close sweep: every engine's orders. */
    method Sweep(slug: string, engine: Option<string>, a: Replies)
      returns (cancelled: seq<OrderId>, unknown: seq<OrderId>, ghost ids: seq<OrderId>)
      requires Keyed(backend.rows)
      modifies backend
      ensures Enumerates(ids, IdsOf(old(backend.rows), slug, true))
      ensures backend.Did(SweepEffects(old(backend.State()), ids, engine, a))
      ensures cancelled == Report(old(backend.State()), ids, engine, a, true)
      ensures unknown == Report(old(backend.State()), ids, engine, a, false)
    {
      ghost var log, w := backend.journal, backend.State();
      var listed := backend.List(slug, true);
      ids := listed;
      var read := backend.rows;
      cancelled, unknown := [], [];
      assert forall id | id in listed :: id in w.rows && w.rows[id].id == id && IsLive(w.rows[id].state);
      assert listed[..0] == [];
      for k := 0 to |listed|
        invariant backend.Since(log, w, SweepEffects(w, listed[..k], engine, a))
        invariant cancelled == Report(w, listed[..k], engine, a, true)
        invariant unknown == Report(w, listed[..k], engine, a, false)
      {
        assert listed[k] in listed;
        ReportNext(w, listed, k, engine, a, true);
        ReportNext(w, listed, k, engine, a, false);
        var verdict := SweepNext(read[listed[k]], listed, k, engine, a, log, w);
        if verdict == Some(true) { cancelled := cancelled + [listed[k]]; }
        if verdict == Some(false) { unknown := unknown + [listed[k]]; }
      }
      assert listed[..|listed|] == listed;
    }
  }
}
