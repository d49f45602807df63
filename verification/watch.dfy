/** One market window's MAJORITY sequence: what is decided, once, and never rewritten. */
module Watches {
  import Orders
  import opened Trigger
  import opened Wrappers

  datatype Stage =
    | Off | Armed | WaitingWindow | WindowOpen | WaitingTrigger | Fired | ReadingClob | Determined
    | SideSelected | IntentCreated | Sent | Working | PartlyFilled | FullyFilled | Completed
    | NoTrade | Retracted | NeverSent | Refused

  predicate IsOver(s: Stage) {
    s.Completed? || s.NoTrade? || s.Retracted? || s.NeverSent? || s.Refused?
  }

  /** Quantity has executed: no verdict of "not traded" may be written over it. */
  predicate HasExecuted(s: Stage) {
    s.PartlyFilled? || s.FullyFilled?
  }

  /** The reference captured when the window opened, and the levels around it. */
  datatype Levels = Levels(reference: real, upper: real, lower: real)

  datatype Watch = Watch(
    stage: Stage,
    triggeredAt: Option<real>,
    decision: Option<Book>,
    verdict: Option<Verdict>,
    sideAt: Option<real>,
    levels: Option<Levels>,
    firedLevel: Option<real>,
    firedSpot: Option<real>,
    priceReached: bool,
    side: Option<Orders.Direction>)

  function NewWatch(stage: Stage): Watch {
    Watch(stage, None, None, None, None, None, None, None, false, None)
  }

  function Opened(w: Watch): Watch {
    if w.stage.WaitingWindow? then w.(stage := WindowOpen) else w
  }

  function Awaited(w: Watch): Watch {
    if w.stage.WindowOpen? || w.stage.WaitingTrigger? then w.(stage := WaitingTrigger) else w
  }

  /** Firing is refused once fired. */
  function WithFire(w: Watch, now: real, level: Option<real>, spot: Option<real>): Watch {
    if w.triggeredAt.Some? then w else w.(firedLevel := level, firedSpot := spot, triggeredAt := Some(now), stage := Fired)
  }

  function WithReading(w: Watch): Watch {
    if w.stage.Fired? then w.(stage := ReadingClob) else w
  }

  function WithDetermination(w: Watch, v: Verdict, b: Book): Watch {
    w.(verdict := Some(v), decision := Some(b), stage := Determined)
  }

  predicate CanSelect(w: Watch, v: Verdict) {
    w.side.None? && v.direction.Some?
  }

  function WithSide(w: Watch, v: Verdict, b: Book, now: real): Watch {
    w.(side := v.direction, verdict := Some(v), decision := Some(b), sideAt := Some(now), stage := SideSelected)
  }

  function Restored(w: Watch, d: Orders.Direction, createdAt: real): Watch {
    w.(side := Some(d), sideAt := Some(createdAt), stage := SideSelected)
  }

  function WithoutTrade(w: Watch): Watch {
    if IsOver(w.stage) || HasExecuted(w.stage) then w else w.(stage := NoTrade)
  }

  function WithIntent(w: Watch): Watch {
    if w.stage.SideSelected? then w.(stage := IntentCreated) else w
  }

  function WithStage(w: Watch, s: Stage): Watch {
    if IsOver(w.stage) then w else w.(stage := s)
  }

  /** A window begins with nothing decided and nothing latched. */
  lemma BeginsBlank(s: Stage)
    ensures var w := NewWatch(s);
            && w.stage == s && !w.priceReached && w.triggeredAt == None && w.side == None && w.verdict == None && w.decision == None
            && w.sideAt == None && w.levels == None && w.firedLevel == None && w.firedSpot == None
  {
  }

  /** Each mark moves the window from its own stages only, and moves nothing but the stage; a window that fired does not fire again. */
  lemma MarksMoveOnlyFrom(w: Watch, now: real, level: Option<real>, spot: Option<real>)
    ensures Opened(w) == if w.stage == WaitingWindow then w.(stage := WindowOpen) else w
    ensures Awaited(w) == if w.stage in {WindowOpen, WaitingTrigger} then w.(stage := WaitingTrigger) else w
    ensures WithReading(w) == if w.stage == Fired then w.(stage := ReadingClob) else w
    ensures WithIntent(w) == if w.stage == SideSelected then w.(stage := IntentCreated) else w
    ensures w.triggeredAt != None ==> WithFire(w, now, level, spot) == w
  {
  }

  /** A lock, taken or put back, is the side of its verdict or intent, with its clock; a determination alone locks nothing. */
  lemma Locks(w: Watch, v: Verdict, b: Book, d: Orders.Direction, at: real)
    ensures var locked, back, determined := WithSide(w, v, b, at), Restored(w, d, at), WithDetermination(w, v, b);
            && (CanSelect(w, v) <==> w.side == None && v.direction != None)
            && locked.side == v.direction && locked.sideAt == Some(at) && locked.stage == SideSelected
            && locked.verdict == Some(v) && locked.decision == Some(b)
            && back.side == Some(d) && back.sideAt == Some(at) && back.stage == SideSelected && back.verdict == w.verdict
            && determined.side == w.side && determined.stage == Determined
            && determined.verdict == Some(v) && determined.decision == Some(b)
  {
  }

  /** What is finished stays as it finished, and no verdict of "not traded" is written over executed quantity; otherwise both marks are made. */
  lemma NothingFinalIsOverwritten(w: Watch, s: Stage)
    ensures WithoutTrade(w) == if w.stage in {Completed, NoTrade, Retracted, NeverSent, Refused, PartlyFilled, FullyFilled} then w else w.(stage := NoTrade)
    ensures WithStage(w, s) == if w.stage in {Completed, NoTrade, Retracted, NeverSent, Refused} then w else w.(stage := s)
  {
  }

  // ── the imperative form ───────────────────────────────────────────────────

  class MajorityMarketState {
    var stage: Stage
    var triggeredAt: Option<real>
    var decision: Option<Book>
    var verdict: Option<Verdict>
    var sideAt: Option<real>
    var levels: Option<Levels>
    var firedLevel: Option<real>
    var firedSpot: Option<real>
    var priceReached: bool
    var side: Option<Orders.Direction>

    function AsWatch(): Watch
      reads this
    {
      Watch(stage, triggeredAt, decision, verdict, sideAt, levels, firedLevel, firedSpot, priceReached, side)
    }

    constructor (stage: Stage)
      ensures AsWatch() == NewWatch(stage)
    {
      this.stage, triggeredAt, decision, verdict, sideAt := stage, None, None, None, None;
      levels, firedLevel, firedSpot, priceReached, side := None, None, None, false, None;
    }

    method OpenWindow()
      modifies this
      ensures AsWatch() == Opened(old(AsWatch()))
    {
      if stage == WaitingWindow { stage := WindowOpen; }
    }

    method AwaitTrigger()
      modifies this
      ensures AsWatch() == Awaited(old(AsWatch()))
    {
      if stage == WindowOpen || stage == WaitingTrigger { stage := WaitingTrigger; }
    }

    method CaptureLevels(spot: real, buffer: real)
      modifies this
      ensures AsWatch() == old(AsWatch()).(levels := Some(Levels(spot, spot + buffer, spot - buffer)))
    {
      levels := Some(Levels(spot, spot + buffer, spot - buffer));
    }

    method LatchPriceTrigger()
      modifies this
      ensures AsWatch() == old(AsWatch()).(priceReached := true)
    {
      priceReached := true;
    }

    /** Fires at most once; raises on a second attempt. */
    method MarkTriggered(now: real) returns (raised: bool)
      modifies this
      ensures raised <==> old(triggeredAt).Some?
      ensures AsWatch() == if raised then old(AsWatch()) else old(AsWatch()).(triggeredAt := Some(now), stage := Fired)
    {
      if triggeredAt.Some? { return true; }
      triggeredAt := Some(now);
      stage := Fired;
      return false;
    }

    method Fire(now: real, level: Option<real>, spot: Option<real>)
      modifies this
      ensures AsWatch() == WithFire(old(AsWatch()), now, level, spot)
    {
      if triggeredAt.Some? { return; }
      firedLevel, firedSpot := level, spot;
      var raised := MarkTriggered(now);
      assert !raised;
    }

    method MarkReading()
      modifies this
      ensures AsWatch() == WithReading(old(AsWatch()))
    {
      if stage == Fired { stage := ReadingClob; }
    }

    method MarkDetermined(v: Verdict, b: Book)
      modifies this
      ensures AsWatch() == WithDetermination(old(AsWatch()), v, b)
    {
      verdict, decision, stage := Some(v), Some(b), Determined;
    }

    /** Locks the side from a determination, once; raises without a side to lock or with one locked. */
    method SelectSide(v: Verdict, b: Book, now: real) returns (raised: bool)
      modifies this
      ensures raised <==> !CanSelect(old(AsWatch()), v)
      ensures AsWatch() == if raised then old(AsWatch()) else WithSide(old(AsWatch()), v, b, now)
    {
      if side.Some? || v.direction.None? { return true; }
      side, verdict, decision, sideAt, stage := v.direction, Some(v), Some(b), Some(now), SideSelected;
      return false;
    }

    method ReconstructLockedSide(d: Orders.Direction, createdAt: real)
      modifies this
      ensures AsWatch() == Restored(old(AsWatch()), d, createdAt)
    {
      side, sideAt, stage := Some(d), Some(createdAt), SideSelected;
    }

    method MarkNoTrade()
      modifies this
      ensures AsWatch() == WithoutTrade(old(AsWatch()))
    {
      if IsOver(stage) || HasExecuted(stage) { return; }
      stage := NoTrade;
    }

    method MarkIntentCreated()
      modifies this
      ensures AsWatch() == WithIntent(old(AsWatch()))
    {
      if stage == SideSelected { stage := IntentCreated; }
    }

    method MarkState(s: Stage)
      modifies this
      ensures AsWatch() == WithStage(old(AsWatch()), s)
    {
      if IsOver(stage) { return; }
      stage := s;
    }
  }
}
