/** Submission: persist, then send; never blindly retry a request of unknown outcome. */
module Submit {
  import Ids
  import opened Orders
  import opened Backend
  import opened Chains
  import Split
  import opened Wrappers

  /** The venue's answers to one order, by attempt. */
  type Answers = nat -> PlaceAnswer

  predicate Transient(answers: Answers, n: nat) {
    answers(n).Failed? && Classify(answers(n).why).RetryNow?
  }

  /** The row after the answer that ends the loop. */
  function Settled(row: Row, a: PlaceAnswer): Row {
    if a.Accepted? then Moved(row.(venueId := a.venueId), Submitted, "")
    else if Classify(a.why).OutcomeUnknown? then Moved(row, Indeterminate, a.why.text)
    else Moved(row, Rejected, RejectionReason(a.why))
  }

  /** The effects of the send loop from its `n`-th attempt on. */
  function Attempts(row: Row, answers: Answers, n: nat): (es: seq<Effect>)
    requires 1 <= n <= IMMEDIATE_RETRY_LIMIT
    ensures |es| > 0
    decreases IMMEDIATE_RETRY_LIMIT - n
  {
    [Place(row.id, answers(n))]
    + if Transient(answers, n) && n < IMMEDIATE_RETRY_LIMIT then Attempts(row, answers, n + 1)
      else [SaveRow(Settled(row, answers(n)))]
  }

  /** A row that exists is left alone: a replayed submission sends nothing. */
  function PlaceOneEffects(rows: map<Ids.OrderId, Row>, row: Row, answers: Answers): seq<Effect> {
    if row.id in rows then [] else [SaveRow(row)] + Attempts(row, answers, 1)
  }

  predicate Fresh(row: Row) {
    row.state.Pending? && row.filled == 0.0 && row.size >= 0.0 && row.id.generation == 0
  }

  lemma {:induction false} AttemptsSound(w: World, l: Limits, row: Row, answers: Answers, n: nat)
    requires 1 <= n <= IMMEDIATE_RETRY_LIMIT && Fresh(row)
    requires row.id in w.rows && w.rows[row.id] == row && row.id !in w.accepted
    ensures Sound(w, l, Attempts(row, answers, n), false)
    decreases IMMEDIATE_RETRY_LIMIT - n
  {
    var es, a := Attempts(row, answers, n), answers(n);
    var w' := Apply(w, es[0]);
    assert w'.rows == w.rows;
    if Transient(answers, n) && n < IMMEDIATE_RETRY_LIMIT {
      assert w' == w;
      AttemptsSound(w, l, row, answers, n + 1);
      assert es[1..] == Attempts(row, answers, n + 1);
    } else {
      assert Sound(Apply(w', es[1]), l, es[1..][1..], false);
    }
  }

  /**
   What the recorded state tells: SUBMITTED exactly on an acknowledgement, INDETERMINATE exactly when the
   outcome is unknown, REJECTED otherwise; and an order the venue took on is never recorded REJECTED.
   */
  lemma SettledTells(row: Row, a: PlaceAnswer)
    requires row.state.Pending?
    ensures var r := Settled(row, a);
            && (r.state.Submitted? <==> a.Accepted?)
            && (r.state.Indeterminate? <==> a.Failed? && (a.why.ConnectionLost? || a.why.CancelAckTimeout? || a.why.ForeignException?))
            && (r.state.Submitted? || r.state.Indeterminate? || r.state.Rejected?)
            && (Reached(a) ==> !r.state.Rejected?)
            && SameTerms(r, row) && r.filled == row.filled && CanMove(row, r.state)
            && r.venueId == (if a.Accepted? then a.venueId else row.venueId)
            && (r.state.Rejected? && a.why.PostOnlyWouldCross? ==> r.reason == "POST_ONLY_WOULD_CROSS")
  {
  }

  /** What the next attempt adds to the effects so far, and what is then to come. */
  lemma AttemptIs(row: Row, answers: Answers, n: nat, done: seq<Effect>, rest: seq<Effect>) returns (sent: seq<Effect>, next: seq<Effect>)
    requires 1 <= n <= IMMEDIATE_RETRY_LIMIT && rest == Attempts(row, answers, n)
    ensures sent == done + [Place(row.id, answers(n))] && done + rest == sent + next
    ensures if Transient(answers, n) && n < IMMEDIATE_RETRY_LIMIT then next == Attempts(row, answers, n + 1)
            else next == [SaveRow(Settled(row, answers(n)))]
  {
    sent := done + [Place(row.id, answers(n))];
    next := if Transient(answers, n) && n < IMMEDIATE_RETRY_LIMIT then Attempts(row, answers, n + 1) else [SaveRow(Settled(row, answers(n)))];
    Assoc(done, [Place(row.id, answers(n))], next);
  }

  /** An attempt moves no row, and a transient reject leaves nothing at all. */
  lemma AttemptLeaves(w: World, row: Row, answers: Answers, n: nat)
    ensures var after := Apply(w, Place(row.id, answers(n)));
            after.rows == w.rows && (Transient(answers, n) ==> after == w)
  {
  }

  /** Effects from the `n`-th attempt on that end by recording the answer of the last, which is no transient reject or the sixth. */
  predicate Recorded(es: seq<Effect>, row: Row, answers: Answers, n: nat) {
    && |es| >= 2 && n + |es| - 2 <= 6
    && es[|es| - 1] == SaveRow(Settled(row, answers(n + |es| - 2)))
    && (n + |es| - 2 == 6 || !Transient(answers, n + |es| - 2))
  }

  lemma RecordedLater(e: Effect, rest: seq<Effect>, es: seq<Effect>, row: Row, answers: Answers, n: nat)
    requires es == [e] + rest && Recorded(rest, row, answers, n + 1)
    ensures Recorded(es, row, answers, n)
  {
    assert es[|es| - 1] == rest[|rest| - 1] && n + |es| - 2 == n + 1 + |rest| - 2;
  }

  /** The loop ends by recording the answer it ended on. */
  lemma {:induction false} EndsOnRecord(row: Row, answers: Answers, n: nat)
    requires 1 <= n <= IMMEDIATE_RETRY_LIMIT
    ensures Recorded(Attempts(row, answers, n), row, answers, n)
    decreases IMMEDIATE_RETRY_LIMIT - n
  {
    var e, es := Place(row.id, answers(n)), Attempts(row, answers, n);
    if Transient(answers, n) && n < IMMEDIATE_RETRY_LIMIT {
      EndsOnRecord(row, answers, n + 1);
      RecordedLater(e, Attempts(row, answers, n + 1), es, row, answers, n);
    } else {
      assert es == [e, SaveRow(Settled(row, answers(n)))];
    }
  }

  /** At most the limit of requests, all but the last answered with a transient reject. */
  lemma {:induction false} RetriesBounded(row: Row, answers: Answers, n: nat)
    requires 1 <= n <= IMMEDIATE_RETRY_LIMIT
    ensures var es := Attempts(row, answers, n);
            && 2 <= |es| <= 8 - n
            && (forall i | 0 <= i < |es| - 1 :: es[i] == Place(row.id, answers(n + i)))
            && (forall k | n <= k < n + |es| - 2 :: Transient(answers, k))
    decreases IMMEDIATE_RETRY_LIMIT - n
  {
    if Transient(answers, n) && n < IMMEDIATE_RETRY_LIMIT {
      RetriesBounded(row, answers, n + 1);
      var es, rest := Attempts(row, answers, n), Attempts(row, answers, n + 1);
      assert es == [Place(row.id, answers(n))] + rest;
      forall i | 0 <= i < |es| - 1
        ensures es[i] == Place(row.id, answers(n + i))
      {
        if i > 0 { assert es[i] == rest[i - 1]; }
      }
    }
  }

  lemma {:induction false} PlaceOneSound(w: World, l: Limits, row: Row, answers: Answers)
    requires Inv(w, l) && Fresh(row)
    ensures Sound(w, l, PlaceOneEffects(w.rows, row, answers), false)
  {
    if row.id !in w.rows {
      var w' := Apply(w, SaveRow(row));
      AttemptsSound(w', l, row, answers, 1);
      var es := PlaceOneEffects(w.rows, row, answers);
      assert es[1..] == Attempts(row, answers, 1);
    }
  }

  // ── plans ─────────────────────────────────────────────────────────────────

  /** The venue minimum, the size step and the engine a submitter is built with. */
  datatype Desk = Desk(minimum: real, step: real, engine: string)

  function Slot(d: Desk, i: Intent, index: nat): Ids.OrderId {
    Ids.OrderId(Ids.ChainKey(d.engine, i.slug, i.offset, index), 0)
  }

  function Rows(d: Desk, i: Intent, sizes: seq<real>): (rows: seq<Row>)
    ensures |rows| == |sizes|
  {
    seq(|sizes|, k requires 0 <= k < |sizes| => NewRow(Slot(d, i, k), i.direction, i.limitPrice, sizes[k]))
  }

  /** The order ladder: the intent's price and side, its size divided. */
  function Plan(d: Desk, i: Intent, count: int): Result<seq<Row>, Split.SplitError> {
    match Split.Ladder(i.size, count, d.minimum, d.step)
    case Err(e) => Err(e)
    case Ok(sizes) => Ok(Rows(d, i, sizes))
  }

  /** The effects of the first `n` rows. */
  function PlaceFirst(w: World, rows: seq<Row>, answers: nat -> Answers, n: nat): seq<Effect>
    requires n <= |rows|
  {
    if n == 0 then []
    else
      var es := PlaceFirst(w, rows, answers, n - 1);
      es + PlaceOneEffects(ApplyAll(w, es).rows, rows[n - 1], answers(n - 1))
  }

  function PlaceAllEffects(w: World, rows: seq<Row>, answers: nat -> Answers): seq<Effect> {
    PlaceFirst(w, rows, answers, |rows|)
  }

  datatype SubmitError = MarketNotActive | NoLadder(why: Split.SplitError)

  function SubmitEffects(w: World, d: Desk, i: Intent, count: int, active: bool, answers: nat -> Answers)
    : Result<seq<Effect>, SubmitError>
  {
    if !active then Err(MarketNotActive)
    else match Plan(d, i, count)
      case Err(e) => Err(NoLadder(e))
      case Ok(rows) => Ok(PlaceAllEffects(w, rows, answers))
  }

  lemma {:induction false} PlaceFirstSound(w: World, l: Limits, rows: seq<Row>, answers: nat -> Answers, n: nat)
    requires Inv(w, l) && n <= |rows| && forall k | 0 <= k < |rows| :: Fresh(rows[k])
    ensures Sound(w, l, PlaceFirst(w, rows, answers, n), false)
  {
    if n > 0 {
      var es := PlaceFirst(w, rows, answers, n - 1);
      PlaceFirstSound(w, l, rows, answers, n - 1);
      InvAfter(w, l, es, false);
      PlaceOneSound(ApplyAll(w, es), l, rows[n - 1], answers(n - 1));
      SoundConcat(w, l, es, PlaceOneEffects(ApplyAll(w, es).rows, rows[n - 1], answers(n - 1)), false);
    }
  }

  /** Submission is safe whatever the venue answers, at every crash point, on first run and on replay. */
  lemma SubmitSound(w: World, l: Limits, d: Desk, i: Intent, count: int, answers: nat -> Answers)
    requires Inv(w, l) && SubmitEffects(w, d, i, count, true, answers).Ok?
    ensures Sound(w, l, SubmitEffects(w, d, i, count, true, answers).value, false)
  {
    var rows := Plan(d, i, count).value;
    if rows != [] {
      Split.LadderConserves(i.size, count, d.minimum, d.step);
    }
    PlaceFirstSound(w, l, rows, answers, |rows|);
  }

  // ── what a submission leaves behind ───────────────────────────────────────

  /** The attempt whose answer ends the loop: the first not answered with a transient reject, or the sixth. */
  function EndsAt(answers: Answers, n: nat): (last: nat)
    requires 1 <= n <= 6
    ensures n <= last <= 6
    decreases 6 - n
  {
    if n < 6 && answers(n).Failed? && answers(n).why.TransientLatencyReject? then EndsAt(answers, n + 1) else n
  }

  /** The answer that ends it. */
  function Ending(answers: Answers): PlaceAnswer {
    answers(EndsAt(answers, 1))
  }

  /** A row and a venue after the loop: the answer it ended on is on record, and the venue has the order exactly when that answer says so. */
  lemma {:induction false} AttemptsLeave(w: World, row: Row, answers: Answers, n: nat)
    requires 1 <= n <= IMMEDIATE_RETRY_LIMIT && row.id in w.rows && w.rows[row.id] == row
    ensures var w', a := ApplyAll(w, Attempts(row, answers, n)), answers(EndsAt(answers, n));
            w' == w.(rows := w.rows[row.id := Settled(row, a)], accepted := if Reached(a) then w.accepted + [row.id] else w.accepted)
    decreases IMMEDIATE_RETRY_LIMIT - n
  {
    if Transient(answers, n) && n < IMMEDIATE_RETRY_LIMIT {
      ApplyAllCons(w, Place(row.id, answers(n)), Attempts(row, answers, n + 1));
      AttemptLeaves(w, row, answers, n);
      AttemptsLeave(w, row, answers, n + 1);
    } else {
      Two([], w, Place(row.id, answers(n)), SaveRow(Settled(row, answers(n))));
      assert Attempts(row, answers, n) == [Place(row.id, answers(n)), SaveRow(Settled(row, answers(n)))];
    }
  }

  /** What placing one more row makes of the world before it. */
  function WithPlaced(w: World, row: Row, a: PlaceAnswer): World {
    if row.id in w.rows then w
    else w.(rows := w.rows[row.id := Settled(row, a)], accepted := if Reached(a) then w.accepted + [row.id] else w.accepted)
  }

  /** An order on record is left alone; any other is recorded, sent, and its answer recorded. */
  lemma PlaceOneLeaves(w: World, row: Row, answers: Answers)
    ensures ApplyAll(w, PlaceOneEffects(w.rows, row, answers)) == WithPlaced(w, row, Ending(answers))
  {
    if row.id !in w.rows {
      ApplyAllCons(w, SaveRow(row), Attempts(row, answers, 1));
      var w1 := Apply(w, SaveRow(row));
      AttemptsLeave(w1, row, answers, 1);
      assert w1.rows[row.id := Settled(row, Ending(answers))] == w.rows[row.id := Settled(row, Ending(answers))];
    }
  }

  /** One row of a submission afterwards: as it was if it was there, otherwise on record with its last answer. */
  ghost predicate IsPlaced(w: World, w': World, row: Row, a: PlaceAnswer) {
    && row.id in w'.rows
    && w'.rows[row.id] == (if row.id in w.rows then w.rows[row.id] else Settled(row, a))
    && (row.id in w'.accepted <==> row.id in w.accepted || (row.id !in w.rows && Reached(a)))
  }

  /** Nothing else is touched. */
  ghost predicate Untouched(w: World, w': World, id: Ids.OrderId) {
    && (id in w'.rows <==> id in w.rows) && (id in w.rows ==> w'.rows[id] == w.rows[id])
    && (id in w'.accepted <==> id in w.accepted)
  }

  lemma StaysUntouched(w: World, w1: World, next: Row, b: PlaceAnswer, id: Ids.OrderId)
    requires Untouched(w, w1, id) && next.id != id
    ensures Untouched(w, WithPlaced(w1, next, b), id)
  {
  }

  lemma PlaceFirstNext(w: World, rows: seq<Row>, answers: nat -> Answers, n: nat, w1: World) returns (next: Row, b: PlaceAnswer)
    requires 0 < n <= |rows| && w1 == ApplyAll(w, PlaceFirst(w, rows, answers, n - 1))
    ensures next == rows[n - 1] && b == Ending(answers(n - 1))
    ensures ApplyAll(w, PlaceFirst(w, rows, answers, n)) == WithPlaced(w1, next, b)
  {
    next, b := rows[n - 1], Ending(answers(n - 1));
    PlaceOneLeaves(w1, next, answers(n - 1));
    ApplyAllConcat(w, PlaceFirst(w, rows, answers, n - 1), PlaceOneEffects(w1.rows, next, answers(n - 1)));
  }

  lemma {:induction false} PlaceFirstSpares(w: World, rows: seq<Row>, answers: nat -> Answers, n: nat, id: Ids.OrderId)
    requires n <= |rows| && forall k | 0 <= k < n :: rows[k].id != id
    ensures Untouched(w, ApplyAll(w, PlaceFirst(w, rows, answers, n)), id)
  {
    if n == 0 {
      assert ApplyAll(w, []) == w;
    } else {
      var w1 := ApplyAll(w, PlaceFirst(w, rows, answers, n - 1));
      PlaceFirstSpares(w, rows, answers, n - 1, id);
      var next, b := PlaceFirstNext(w, rows, answers, n, w1);
      StaysUntouched(w, w1, next, b, id);
    }
  }

  lemma PlacedStays(w: World, w1: World, row: Row, a: PlaceAnswer, next: Row, b: PlaceAnswer)
    requires IsPlaced(w, w1, row, a) && next.id != row.id
    ensures IsPlaced(w, WithPlaced(w1, next, b), row, a)
  {
  }

  lemma PlacedNow(w: World, w1: World, row: Row, a: PlaceAnswer)
    requires Untouched(w, w1, row.id)
    ensures IsPlaced(w, WithPlaced(w1, row, a), row, a)
  {
  }

  lemma {:induction false} PlaceFirstLeaves(w: World, rows: seq<Row>, answers: nat -> Answers, n: nat, k: nat, row: Row, a: PlaceAnswer)
    requires k < n <= |rows| && row == rows[k] && a == Ending(answers(k)) && forall j | 0 <= j < n && j != k :: rows[j].id != row.id
    ensures IsPlaced(w, ApplyAll(w, PlaceFirst(w, rows, answers, n)), row, a)
  {
    var w1 := ApplyAll(w, PlaceFirst(w, rows, answers, n - 1));
    var next, b := PlaceFirstNext(w, rows, answers, n, w1);
    if k < n - 1 {
      PlaceFirstLeaves(w, rows, answers, n - 1, k, row, a);
      PlacedStays(w, w1, row, a, next, b);
    } else {
      PlaceFirstSpares(w, rows, answers, n - 1, row.id);
      PlacedNow(w, w1, row, a);
    }
  }

  /** The row of part `k` of an intent, before it is sent. */
  function Part(d: Desk, i: Intent, k: nat, size: real): Row {
    Row(Ids.OrderId(Ids.ChainKey(d.engine, i.slug, i.offset, k), 0), i.direction, i.limitPrice, size, Pending, 0.0, "", "")
  }

  /**
   A submission is refused outside ACTIVE and where the size cannot be divided. Otherwise every part of the
   division is an order at the intent's price and side: left alone if it was on record, and if not recorded
   with the answer its sending ended on, and at the venue exactly when that answer says so; and no other
   order is touched.
   */
  lemma SubmitDoes(w: World, d: Desk, i: Intent, count: int, active: bool, answers: nat -> Answers)
    ensures var r, ladder := SubmitEffects(w, d, i, count, active, answers), Split.Ladder(i.size, count, d.minimum, d.step);
            && (r == Err(MarketNotActive) <==> !active)
            && (r.Ok? <==> active && ladder.Ok?)
            && (r.Ok? ==>
                  var w' := ApplyAll(w, r.value);
                  && (forall k | 0 <= k < |ladder.value| :: IsPlaced(w, w', Part(d, i, k, ladder.value[k]), Ending(answers(k))))
                  && (forall id | forall k | 0 <= k < |ladder.value| :: id != Part(d, i, k, ladder.value[k]).id :: Untouched(w, w', id)))
  {
    if active && Plan(d, i, count).Ok? {
      var rows, ladder := Plan(d, i, count).value, Split.Ladder(i.size, count, d.minimum, d.step).value;
      assert forall k | 0 <= k < |rows| :: rows[k] == Part(d, i, k, ladder[k]);
      forall k | 0 <= k < |ladder|
        ensures IsPlaced(w, ApplyAll(w, PlaceAllEffects(w, rows, answers)), Part(d, i, k, ladder[k]), Ending(answers(k)))
      {
        PlaceFirstLeaves(w, rows, answers, |rows|, k, rows[k], Ending(answers(k)));
      }
      forall id | forall k | 0 <= k < |ladder| :: id != Part(d, i, k, ladder[k]).id
        ensures Untouched(w, ApplyAll(w, PlaceAllEffects(w, rows, answers)), id)
      {
        forall k | 0 <= k < |rows|
          ensures rows[k].id != id
        {
          assert id != Part(d, i, k, ladder[k]).id;
        }
        PlaceFirstSpares(w, rows, answers, |rows|, id);
      }
    }
  }

  // ── the imperative form ───────────────────────────────────────────────────

  class Submitter {
    const desk: Desk
    const backend: Backend

    constructor (backend: Backend, desk: Desk)
      ensures this.backend == backend && this.desk == desk
    {
      this.backend, this.desk := backend, desk;
    }

    method Settle(order: Order, answer: PlaceAnswer)
      requires order.state.Pending?
      modifies backend, order
      ensures order.AsRow() == Settled(old(order.AsRow()), answer)
      ensures backend.DidOne(SaveRow(order.AsRow()))
    {
      var raised: bool;
      if answer.Accepted? {
        order.SetVenueId(answer.venueId);
        raised := order.Transition(Submitted, "");
      } else if Classify(answer.why).OutcomeUnknown? {
        raised := order.Transition(Indeterminate, answer.why.text);
      } else {
        raised := order.Transition(Rejected, RejectionReason(answer.why));
      }
      assert !raised;
      backend.SaveOrder(order.AsRow());
    }

    /** Send until the venue gives an answer that is not a transient reject, or the limit is reached. */
    method Send(order: Order, answers: Answers)
      requires order.state.Pending?
      modifies backend, order
      ensures backend.Did(Attempts(old(order.AsRow()), answers, 1))
      ensures backend.rows == Upsert(old(backend.rows), order.AsRow())
      ensures SameTerms(order.AsRow(), old(order.AsRow()))
    {
      ghost var row, log, w, done := order.AsRow(), backend.journal, backend.State(), [];
      ghost var whole := Attempts(row, answers, 1);
      ghost var rest := whole;
      var attempts := 0;
      while true
        invariant attempts < IMMEDIATE_RETRY_LIMIT
        invariant order.AsRow() == row && backend.State() == w && backend.Since(log, w, done)
        invariant whole == done + rest && rest == Attempts(row, answers, attempts + 1)
        decreases IMMEDIATE_RETRY_LIMIT - attempts
      {
        attempts := attempts + 1;
        var answer := answers(attempts);
        ThenOne(log, w, done, Place(row.id, answer));
        ghost var sent, next := AttemptIs(row, answers, attempts, done, rest);
        AttemptLeaves(w, row, answers, attempts);
        backend.Place(order.id, answer);
        if Transient(answers, attempts) && attempts < IMMEDIATE_RETRY_LIMIT {
          done, rest := sent, next;
          continue;
        }
        ThenOne(log, w, sent, SaveRow(Settled(row, answer)));
        Settle(order, answer);
        return;
      }
    }

    /** Persist, then send. An order already on record is returned as it stands. */
    method PlaceOne(order: Order, answers: Answers) returns (placed: Order)
      requires Fresh(order.AsRow()) && Keyed(backend.rows)
      modifies backend, order
      ensures backend.Did(PlaceOneEffects(old(backend.rows), old(order.AsRow()), answers))
      ensures backend.rows.Keys == old(backend.rows.Keys) + {order.id}
      ensures Keyed(backend.rows) && placed.AsRow() == backend.rows[order.id]
      ensures placed == order || fresh(placed)
    {
      if order.id in backend.rows {
        placed := new Order(backend.rows[order.id]);
        return;
      }
      ghost var row, w := order.AsRow(), backend.State();
      backend.SaveOrder(order.AsRow());
      Send(order, answers);
      Assoc(old(backend.journal), [SaveRow(row)], Attempts(row, answers, 1));
      ApplyAllCons(w, SaveRow(row), Attempts(row, answers, 1));
      placed := order;
    }

    /** The next row of a ladder, after the rows before it. */
    method PlaceNext(rows: seq<Row>, k: nat, answers: nat -> Answers, ghost log: seq<Effect>, ghost w: World, ghost done: seq<Effect>)
      returns (placed: Order, ghost more: seq<Effect>)
      requires k < |rows| && Fresh(rows[k]) && Keyed(backend.rows) && done == PlaceFirst(w, rows, answers, k) && backend.Since(log, w, done)
      modifies backend
      ensures more == PlaceFirst(w, rows, answers, k + 1) && backend.Since(log, w, more) && Keyed(backend.rows)
      ensures placed.id == rows[k].id && placed.id in backend.rows.Keys && old(backend.rows.Keys) <= backend.rows.Keys
    {
      more := done + PlaceOneEffects(backend.rows, rows[k], answers(k));
      Then(log, w, done, PlaceOneEffects(backend.rows, rows[k], answers(k)));
      var order := new Order(rows[k]);
      placed := PlaceOne(order, answers(k));
    }

    /** One order for each of the first rows, all on record. */
    static ghost predicate Answer(placed: seq<Order>, rows: seq<Row>, keys: set<Ids.OrderId>) {
      |placed| <= |rows| && forall m | 0 <= m < |placed| :: placed[m].id == rows[m].id && rows[m].id in keys
    }

    static lemma AnswerNext(placed: seq<Order>, rows: seq<Row>, keys: set<Ids.OrderId>, one: Order, more: set<Ids.OrderId>)
      requires Answer(placed, rows, keys) && keys <= more && |placed| < |rows| && one.id == rows[|placed|].id && one.id in more
      ensures Answer(placed + [one], rows, more)
    {
    }

    /** The rows in turn, each persisted before it is sent. */
    method PlaceAll(rows: seq<Row>, answers: nat -> Answers) returns (placed: seq<Order>)
      requires Keyed(backend.rows) && forall k | 0 <= k < |rows| :: Fresh(rows[k])
      modifies backend
      ensures Keyed(backend.rows)
      ensures backend.Did(PlaceAllEffects(old(backend.State()), rows, answers))
      ensures |placed| == |rows| && forall k | 0 <= k < |rows| :: placed[k].id == rows[k].id && rows[k].id in backend.rows
    {
      ghost var log, w := backend.journal, backend.State();
      placed := [];
      ghost var done := PlaceFirst(w, rows, answers, 0);
      assert done == [] && ApplyAll(w, []) == w;
      for k := 0 to |rows|
        invariant |placed| == k && Keyed(backend.rows) && Answer(placed, rows, backend.rows.Keys)
        invariant done == PlaceFirst(w, rows, answers, k) && backend.Since(log, w, done)
      {
        ghost var keys := backend.rows.Keys;
        var one;
        one, done := PlaceNext(rows, k, answers, log, w, done);
        AnswerNext(placed, rows, keys, one, backend.rows.Keys);
        placed := placed + [one];
      }
    }

    /** Refuse outside ACTIVE, divide the approved size, place the ladder. */
    method Submit(i: Intent, count: int, active: bool, answers: nat -> Answers) returns (r: Result<seq<Order>, SubmitError>)
      requires Keyed(backend.rows)
      modifies backend
      ensures Keyed(backend.rows)
      ensures match SubmitEffects(old(backend.State()), desk, i, count, active, answers)
              case Err(e) => r == Err(e) && backend.Did([])
              case Ok(es) =>
                && r.Ok? && backend.Did(es)
                && |r.value| == |Plan(desk, i, count).value|
                && (forall k | 0 <= k < |r.value| :: r.value[k].id == Slot(desk, i, k) && r.value[k].id in backend.rows)
    {
      if !active { return Err(MarketNotActive); }
      var ladder := Split.SplitSize(i.size, count, desk.minimum, desk.step);
      if ladder.Err? { return Err(NoLadder(ladder.error)); }
      var rows := Rows(desk, i, ladder.value);
      if rows != [] { Split.LadderConserves(i.size, count, desk.minimum, desk.step); }
      var placed := PlaceAll(rows, answers);
      return Ok(placed);
    }
  }
}
