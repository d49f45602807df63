module Backend {
  // The store and the venue as the execution code meets them: a sequence of effects, cut by a crash or not.

  import opened Ids
  import opened Orders

  // ── what a venue call can answer ──────────────────────────────────────────

  datatype Failure =
    | TransientLatencyReject(text: string)
    | ConnectionLost(text: string)
    | CancelAckTimeout(text: string)
    | PostOnlyWouldCross(text: string)
    | OtherArcError(text: string)
    | ForeignException(text: string)

  datatype Disposition = RetryNow | OutcomeUnknown | Fail

  function Classify(f: Failure): Disposition {
    match f
    case TransientLatencyReject(_) => RetryNow
    case ConnectionLost(_) => OutcomeUnknown
    case CancelAckTimeout(_) => OutcomeUnknown
    case PostOnlyWouldCross(_) => Fail
    case OtherArcError(_) => Fail
    case ForeignException(_) => OutcomeUnknown
  }

  const POST_ONLY_WOULD_CROSS_REASON: string := "POST_ONLY_WOULD_CROSS"
  const IMMEDIATE_RETRY_LIMIT: nat := 6

  function RejectionReason(f: Failure): string {
    if f.PostOnlyWouldCross? then POST_ONLY_WOULD_CROSS_REASON else f.text
  }

  /** `reached` is the venue's secret: whether a request whose answer was lost arrived after all. */
  datatype PlaceAnswer = Accepted(venueId: string) | Failed(why: Failure, reached: bool)

  /** A definite refusal and a transient reject did not arrive; only a lost answer leaves it open. */
  predicate Reached(a: PlaceAnswer) {
    a.Accepted? || (Classify(a.why).OutcomeUnknown? && a.reached)
  }

  datatype CancelAnswer = Acknowledged | NotAcknowledged(why: Failure)

  // ── rows other than orders ────────────────────────────────────────────────

  /** The venue's own fill key; a paper fill is keyed by its order and the cumulative quantity. */
  datatype FillId = VenueFill(text: string) | PaperFill(order: OrderId, cumulative: real)

  datatype Fill = Fill(id: FillId, order: OrderId, market: string, size: real, price: real, engine: string)

  datatype IntentKey = IntentKey(engine: string, slug: string, offset: nat)

  datatype Intent = Intent(
    slug: string,
    offset: nat,
    direction: Direction,
    lockedTrigger: real,
    createdAt: real,
    ptb: real,
    buffer: real,
    limitPrice: real,
    size: real,
    strategy: string,
    closeTs: int)

  // ── the world and its effects ─────────────────────────────────────────────

  /**
   What survives a crash. `accepted` and `retired` are the venue's side: every id it took on, in
   order, and every id whose cancel it acknowledged.
   */
  datatype World = World(
    rows: map<OrderId, Row>,
    fills: map<FillId, Fill>,
    intents: map<IntentKey, Intent>,
    accepted: seq<OrderId>,
    retired: set<OrderId>)

  datatype Effect =
    | SaveRow(row: Row)
    | SaveFill(fill: Fill)
    | SaveIntent(key: IntentKey, intent: Intent)
    | Place(id: OrderId, answer: PlaceAnswer)
    | Cancel(id: OrderId, reply: CancelAnswer)

  /** Insert, or update progress only: price, size, direction and owner are written once. */
  function Upsert(rows: map<OrderId, Row>, r: Row): map<OrderId, Row> {
    if r.id in rows then
      rows[r.id := rows[r.id].(state := r.state, filled := r.filled, venueId := r.venueId, reason := r.reason)]
    else
      rows[r.id := r]
  }

  function Apply(w: World, e: Effect): World {
    match e
    case SaveRow(r) => w.(rows := Upsert(w.rows, r))
    case SaveFill(f) => if f.id in w.fills then w else w.(fills := w.fills[f.id := f])
    case SaveIntent(k, i) => if k in w.intents then w else w.(intents := w.intents[k := i])
    case Place(id, a) => if Reached(a) then w.(accepted := w.accepted + [id]) else w
    case Cancel(id, r) => if r.Acknowledged? then w.(retired := w.retired + {id}) else w
  }

  function ApplyAll(w: World, es: seq<Effect>): World
    decreases |es|
  {
    if es == [] then w else ApplyAll(Apply(w, es[0]), es[1..])
  }

  lemma {:induction false} ApplyAllConcat(w: World, a: seq<Effect>, b: seq<Effect>)
    ensures ApplyAll(w, a + b) == ApplyAll(ApplyAll(w, a), b)
    decreases |a|
  {
    if a == [] {
      assert a + b == b;
    } else {
      ApplyAllConcat(Apply(w, a[0]), a[1..], b);
      assert (a + b)[1..] == a[1..] + b;
    }
  }

  lemma Assoc<T>(a: seq<T>, b: seq<T>, c: seq<T>)
    ensures a + (b + c) == (a + b) + c
  {
  }

  /** Two stages of effects make one. */
  lemma Then(log: seq<Effect>, w: World, done: seq<Effect>, es: seq<Effect>)
    ensures (log + done) + es == log + (done + es)
    ensures ApplyAll(ApplyAll(w, done), es) == ApplyAll(w, done + es)
  {
    ApplyAllConcat(w, done, es);
  }

  lemma ThenOne(log: seq<Effect>, w: World, done: seq<Effect>, e: Effect)
    ensures (log + done) + [e] == log + (done + [e])
    ensures Apply(ApplyAll(w, done), e) == ApplyAll(w, done + [e])
  {
    ApplyAllLast(w, done, e);
  }

  lemma ApplyAllCons(w: World, e: Effect, es: seq<Effect>)
    ensures ApplyAll(w, [e] + es) == ApplyAll(Apply(w, e), es)
  {
    assert ([e] + es)[1..] == es;
  }

  lemma ApplyAllOne(w: World, e: Effect)
    ensures ApplyAll(w, [e]) == Apply(w, e)
  {
    assert [e][1..] == [];
    assert ApplyAll(Apply(w, e), []) == Apply(w, e);
  }

  lemma Two(log: seq<Effect>, w: World, a: Effect, b: Effect)
    ensures (log + [a]) + [b] == log + [a, b]
    ensures ApplyAll(w, [a, b]) == Apply(Apply(w, a), b)
  {
    assert [a, b] == [a] + [b];
    ApplyAllCons(w, a, [b]);
    ApplyAllOne(Apply(w, a), b);
  }

  lemma Three(log: seq<Effect>, w: World, a: Effect, b: Effect, c: Effect)
    ensures ((log + [a]) + [b]) + [c] == log + [a, b, c]
    ensures ApplyAll(w, [a, b, c]) == Apply(Apply(Apply(w, a), b), c)
  {
    assert [a, b, c] == [a] + [b, c];
    ApplyAllCons(w, a, [b, c]);
    Two(log, Apply(w, a), b, c);
  }

  lemma {:induction false} ApplyAllLast(w: World, a: seq<Effect>, e: Effect)
    ensures ApplyAll(w, a + [e]) == Apply(ApplyAll(w, a), e)
  {
    ApplyAllConcat(w, a, [e]);
    ApplyAllOne(ApplyAll(w, a), e);
  }

  lemma {:induction false} NoFillSaved(w: World, es: seq<Effect>)
    requires forall i | 0 <= i < |es| :: !es[i].SaveFill?
    ensures ApplyAll(w, es).fills == w.fills
    decreases |es|
  {
    if es != [] {
      NoFillSaved(Apply(w, es[0]), es[1..]);
    }
  }

  /** The order id is the primary key. */
  ghost predicate Keyed(rows: map<OrderId, Row>) {
    forall id | id in rows :: rows[id].id == id
  }

  /** The market's rows, optionally only those that may still rest. */
  function IdsOf(rows: map<OrderId, Row>, slug: string, liveOnly: bool): set<OrderId> {
    set id | id in rows && id.chain.slug == slug && (liveOnly ==> IsLive(rows[id].state))
  }

  predicate NoRepeats(ids: seq<OrderId>) {
    forall i, j | 0 <= i < j < |ids| :: ids[i] != ids[j]
  }

  ghost predicate Enumerates(ids: seq<OrderId>, s: set<OrderId>) {
    && NoRepeats(ids)
    && (forall id :: id in ids <==> id in s)
  }

  /** One process's handle on both. The journal records the order in which effects happened. */
  class Backend {
    var rows: map<OrderId, Row>
    var fills: map<FillId, Fill>
    var intents: map<IntentKey, Intent>
    var accepted: seq<OrderId>
    var retired: set<OrderId>
    ghost var journal: seq<Effect>

    function State(): World
      reads this
    {
      World(rows, fills, intents, accepted, retired)
    }

    /** Since the journal read `log` and the world was `w`, exactly `es` happened. */
    ghost predicate Since(log: seq<Effect>, w: World, es: seq<Effect>)
      reads this
    {
      journal == log + es && State() == ApplyAll(w, es)
    }

    twostate predicate Did(es: seq<Effect>)
      reads this
    {
      Since(old(journal), old(State()), es)
    }

    twostate predicate DidOne(e: Effect)
      reads this
    {
      journal == old(journal) + [e] && State() == Apply(old(State()), e)
    }

    constructor (w: World)
      ensures State() == w && journal == []
    {
      rows, fills, intents, accepted, retired := w.rows, w.fills, w.intents, w.accepted, w.retired;
      journal := [];
    }

    method SaveOrder(r: Row)
      modifies this
      ensures DidOne(SaveRow(r))
    {
      rows := Upsert(rows, r);
      journal := journal + [SaveRow(r)];
    }

    method SaveFill(f: Fill) returns (isNew: bool)
      modifies this
      ensures isNew <==> f.id !in old(fills)
      ensures DidOne(Effect.SaveFill(f))
    {
      isNew := f.id !in fills;
      if isNew { fills := fills[f.id := f]; }
      journal := journal + [Effect.SaveFill(f)];
    }

    method SaveIntent(k: IntentKey, i: Intent) returns (isNew: bool)
      modifies this
      ensures isNew <==> k !in old(intents)
      ensures DidOne(Effect.SaveIntent(k, i))
    {
      isNew := k !in intents;
      if isNew { intents := intents[k := i]; }
      journal := journal + [Effect.SaveIntent(k, i)];
    }

    /** The venue call; `answer` is whatever the venue chose to do and say. */
    method Place(id: OrderId, answer: PlaceAnswer)
      modifies this
      ensures DidOne(Effect.Place(id, answer))
    {
      if Reached(answer) { accepted := accepted + [id]; }
      journal := journal + [Effect.Place(id, answer)];
    }

    method Cancel(id: OrderId, answer: CancelAnswer)
      modifies this
      ensures DidOne(Effect.Cancel(id, answer))
    {
      if answer.Acknowledged? { retired := retired + {id}; }
      journal := journal + [Effect.Cancel(id, answer)];
    }

    /** `orders_for` and `live_orders`: each matching row once. */
    method List(slug: string, liveOnly: bool) returns (ids: seq<OrderId>)
      ensures Enumerates(ids, IdsOf(rows, slug, liveOnly))
    {
      var todo := IdsOf(rows, slug, liveOnly);
      ids := [];
      while todo != {}
        invariant todo <= IdsOf(rows, slug, liveOnly)
        invariant Enumerates(ids, IdsOf(rows, slug, liveOnly) - todo)
        decreases todo
      {
        var id :| id in todo;
        ids := ids + [id];
        todo := todo - {id};
      }
    }
  }
}
