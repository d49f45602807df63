/** Order rows and the order state machine. */
module Orders {
  import Ids

  datatype Direction = Up | Down {
    function Opposite(): Direction {
      if this == Up then Down else Up
    }
  }

  datatype OrderState = Pending | Submitted | Partial | Filled | Cancelled | Expired | Rejected | Indeterminate

  predicate IsLive(s: OrderState) {
    s.Pending? || s.Submitted? || s.Partial? || s.Indeterminate?
  }

  predicate IsTerminal(s: OrderState) {
    s.Filled? || s.Cancelled? || s.Expired? || s.Rejected?
  }

  function LegalTargets(s: OrderState): set<OrderState> {
    match s
    case Pending => {Submitted, Rejected, Expired, Indeterminate}
    case Submitted => {Partial, Filled, Cancelled, Expired, Rejected, Indeterminate}
    case Partial => {Filled, Cancelled, Expired, Indeterminate}
    case Indeterminate => {Submitted, Partial, Filled, Cancelled, Expired, Rejected}
    case _ => {}
  }

  /** One row of the orders table. The id carries engine, market, window, index and generation. */
  datatype Row = Row(
    id: Ids.OrderId,
    direction: Direction,
    price: real,
    size: real,
    state: OrderState,
    filled: real,
    venueId: string,
    reason: string)
  {
    function Remaining(): (r: real)
      ensures r >= 0.0
    {
      if size - filled > 0.0 then size - filled else 0.0
    }
  }

  function NewRow(id: Ids.OrderId, direction: Direction, price: real, size: real): Row {
    Row(id, direction, price, size, Pending, 0.0, "", "")
  }

  predicate CanMove(r: Row, target: OrderState) {
    target != r.state && target in LegalTargets(r.state)
  }

  function Moved(r: Row, target: OrderState, reason: string): Row {
    r.(state := target, reason := if reason == "" then r.reason else reason)
  }

  predicate CanFill(r: Row, size: real) {
    size > 0.0 && IsLive(r.state)
  }

  function WithFill(r: Row, size: real): Row {
    var filled := if r.size <= r.filled + size then r.size else r.filled + size;
    r.(filled := filled, state := if filled >= r.size then Filled else Partial)
  }

  /** What two versions of a row never disagree on: everything but progress. */
  predicate SameTerms(a: Row, b: Row) {
    a.id == b.id && a.direction == b.direction && a.price == b.price && a.size == b.size
  }

  /** A terminal state has no way out, a live one has, and a fill either refuses or lands in bounds. */
  lemma StateMachineShape(r: Row, target: OrderState, size: real)
    ensures IsLive(r.state) <==> !IsTerminal(r.state)
    ensures (exists t :: CanMove(r, t)) <==> IsLive(r.state)
    ensures CanMove(r, target) ==> !target.Pending?
    ensures CanFill(r, size) && 0.0 <= r.filled <= r.size ==>
              && r.filled <= WithFill(r, size).filled <= r.size
              && (WithFill(r, size).state.Filled? <==> WithFill(r, size).filled == r.size)
  {
    if IsLive(r.state) {
      assert CanMove(r, Expired) || CanMove(r, Rejected);
    }
  }

  /** The order object the execution code holds and mutates; the store keeps copies of its row. */
  class Order {
    const id: Ids.OrderId
    const direction: Direction
    const price: real
    const size: real
    var state: OrderState
    var filled: real
    var venueId: string
    var reason: string

    function AsRow(): Row
      reads this
    {
      Row(id, direction, price, size, state, filled, venueId, reason)
    }

    constructor (row: Row)
      ensures AsRow() == row
    {
      id, direction, price, size := row.id, row.direction, row.price, row.size;
      state, filled, venueId, reason := row.state, row.filled, row.venueId, row.reason;
    }

    /** Raises and changes nothing unless the table allows the move. */
    method Transition(target: OrderState, why: string) returns (raised: bool)
      modifies this
      ensures raised <==> !CanMove(old(AsRow()), target)
      ensures AsRow() == if raised then old(AsRow()) else Moved(old(AsRow()), target, why)
    {
      if target == state || target !in LegalTargets(state) { return true; }
      state := target;
      if why != "" { reason := why; }
      return false;
    }

    /** Raises on a non-positive fill or a terminal order; otherwise clamps at the order size. */
    method ApplyFill(amount: real) returns (raised: bool)
      modifies this
      ensures raised <==> !CanFill(old(AsRow()), amount)
      ensures AsRow() == if raised then old(AsRow()) else WithFill(old(AsRow()), amount)
    {
      if amount <= 0.0 || !IsLive(state) { return true; }
      filled := if size <= filled + amount then size else filled + amount;
      state := if filled >= size then Filled else Partial;
      return false;
    }

    method SetVenueId(id: string)
      modifies this
      ensures AsRow() == old(AsRow()).(venueId := id)
    {
      venueId := id;
    }
  }
}
