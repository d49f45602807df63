/**
 The book comparisons: when a sequence starts, and which side the book favours.
 */
module Trigger {
  import opened Orders
  import opened Wrappers

  /** Both sides of one book at one instant. None is a missing bid, never zero. */
  datatype Book = Book(up: Option<real>, down: Option<real>, readAt: real, recent: bool) {
    predicate Complete() {
      up.Some? && down.Some?
    }

    predicate Usable() {
      recent && Complete()
    }

    function Bid(d: Direction): Option<real> {
      if d == Up then up else down
    }

    /** The same market seen with its outcomes exchanged. */
    function Mirrored(): Book {
      Book(down, up, readAt, recent)
    }
  }

  datatype Why = StaleBook | NoBids | NoUpBid | NoDownBid | UpHigher | DownHigher | EqualBids

  /** `direction` None is INDETERMINATE: no side, and so no trade. */
  datatype Verdict = Verdict(direction: Option<Direction>, up: Option<real>, down: Option<real>, why: Why)

  function TriggerValue(b: Book): Option<real> {
    if b.up.None? || b.down.None? then None
    else Some(if b.up.value >= b.down.value then b.up.value else b.down.value)
  }

  predicate IsTriggered(b: Book, threshold: real) {
    b.Usable() && match TriggerValue(b) { case Some(best) => best >= threshold case None => false }
  }

  function Determine(b: Book): Verdict {
    if !b.recent then Verdict(None, b.up, b.down, StaleBook)
    else if b.up.None? && b.down.None? then Verdict(None, None, None, NoBids)
    else if b.up.None? then Verdict(None, None, b.down, NoUpBid)
    else if b.down.None? then Verdict(None, b.up, None, NoDownBid)
    else if b.up.value > b.down.value then Verdict(Some(Up), b.up, b.down, UpHigher)
    else if b.down.value > b.up.value then Verdict(Some(Down), b.up, b.down, DownHigher)
    else Verdict(None, b.up, b.down, EqualBids)
  }

  /** `d` outbids the other side on one fresh, complete read. */
  predicate StrictWinner(b: Book, d: Direction) {
    && b.Usable()
    && b.Bid(d).Some? && b.Bid(d.Opposite()).Some?
    && b.Bid(d).value > b.Bid(d.Opposite()).value
  }

  /**
   A side is determined exactly when it strictly outbids the other on a fresh, complete read; the
   verdict carries the bids it was made from, and exchanging the outcomes exchanges the verdict.
   */
  lemma DeterminesStrictWinner(b: Book, d: Direction)
    ensures Determine(b).direction == Some(d) <==> StrictWinner(b, d)
    ensures Determine(b).up == b.up && Determine(b).down == b.down
    ensures Determine(b).why == match (b.recent, b.up, b.down)
                                case (false, _, _) => StaleBook
                                case (_, None, None) => NoBids
                                case (_, None, _) => NoUpBid
                                case (_, _, None) => NoDownBid
                                case (_, Some(u), Some(v)) => if u == v then EqualBids else if u < v then DownHigher else UpHigher
    ensures Determine(b.Mirrored()).direction == Some(d) <==> Determine(b).direction == Some(d.Opposite())
  {
    assert d.Opposite().Opposite() == d;
  }

  /** The threshold is reached exactly when, on a fresh complete read, some side bids at least it. */
  lemma TriggeredWhenReached(b: Book, threshold: real)
    ensures IsTriggered(b, threshold) <==>
              b.Usable() && exists d: Direction :: b.Bid(d).Some? && b.Bid(d).value >= threshold
  {
    if IsTriggered(b, threshold) {
      assert b.Bid(if b.up.value >= b.down.value then Up else Down).value >= threshold;
    }
    if d: Direction :| b.Usable() && b.Bid(d).Some? && b.Bid(d).value >= threshold {
      assert d == Up || d == Down;
    }
  }
}
