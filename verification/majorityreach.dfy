/** The MAJORITY engine does trade: a run that ends with an order, and what a restart leaves of it. */
module MajorityReach {
  import Money
  import Risk
  import Runs
  import Split
  import opened Backend
  import opened Majority
  import opened MajorityRuns
  import opened Orders
  import opened Submit
  import opened Trigger
  import opened Watches
  import opened Wrappers

  const NOTHING: World := World(map[], map[], map[], [], {})

  /** A new window after the tick that met its conditions. */
  function FiredBy(cfg: Config, win: Window, m: Moment): Watch {
    EvaluateEntry(cfg, NewWatch(WindowOpen), win, m)
  }

  /** Two ticks of an open window at most two seconds apart: its conditions are met on the first, and the second may act and sends one part. */
  ghost predicate Opportunity(cfg: Config, desk: Desk, win: Window, first: Moment, second: Moment, d: Direction) {
    && cfg.Valid() && cfg.tradable && win in cfg.windows && DeskOk(desk)
    && first.market.slug == second.market.slug && HasOpened(win, first)
    && (cfg.limitMode ==> PriceMet(NewWatch(WindowOpen), win, first))
    && (cfg.bufferOn ==> BufferMet(NewWatch(WindowOpen), win, first))
    && MayAct(cfg, FiredBy(cfg, win, first), false, win, second, NOTHING, d)
    && var i := IntentOn(cfg, FiredBy(cfg, win, first), win, second, d);
       Plan(desk, i, 1).Ok? && |Plan(desk, i, 1).value| == 1 && second.answers(0)(1).Accepted?
  }

  lemma AfterBoot(cfg: Config, desk: Desk, slug: string, win: Window)
    requires cfg.tick > 0.0 && cfg.tradable && win in cfg.windows
    ensures Enabled(Start(cfg), Boot(slug, []))
    ensures var r := Step(desk, Start(cfg), Boot(slug, []));
            && r == Start(cfg).(eng := r.eng) && r.eng.submitted == {}
            && (slug, win.offset) in r.eng.states && r.eng.states[(slug, win.offset)] == NewWatch(WaitingWindow)
  {
    var n := |cfg.windows|;
    var i :| 0 <= i < n && cfg.windows[i] == win;
    OpeningLeaves(cfg, Engine(map[], {}), slug, n, (slug, win.offset));
  }

  /** A waiting window whose conditions are met fires on its first tick. */
  lemma FirstTick(cfg: Config, desk: Desk, win: Window, m: Moment, world: World)
    requires cfg.tick > 0.0 && HasOpened(win, m)
    requires (cfg.limitMode ==> PriceMet(NewWatch(WindowOpen), win, m)) && (cfg.bufferOn ==> BufferMet(NewWatch(WindowOpen), win, m))
    ensures TickOne(cfg, desk, NewWatch(WaitingWindow), false, win, m, world) == Ticked(FiredBy(cfg, win, m), false, [])
    ensures FiredBy(cfg, win, m).stage.Fired? && FiredBy(cfg, win, m).triggeredAt == Some(m.now) && FiredBy(cfg, win, m).side.None?
  {
    FiresExactlyWhenMet(cfg, NewWatch(WindowOpen), win, m);
    EntryRecords(cfg, NewWatch(WindowOpen), win, m);
  }

  /** Sending saves the intent, then the order, then places it and records the answer. */
  lemma SendsOne(desk: Desk, w: Watch, m: Moment, i: Intent, world: World)
    requires m.market.phase.Active? && Slot(desk, i, 0) !in world.rows
    requires Plan(desk, i, 1).Ok? && |Plan(desk, i, 1).value| == 1 && !Transient(m.answers(0), 1)
    ensures var row := Plan(desk, i, 1).value[0];
            && row.id == Slot(desk, i, 0)
            && Sending(desk, w, m, i, world).effects ==
                 [SaveIntent(KeyOf(i.slug, i.offset), i)]
                 + [SaveRow(row), Place(row.id, m.answers(0)(1)), SaveRow(Settled(row, m.answers(0)(1)))]
  {
    Runs.SubmissionBegins(Apply(world, SaveIntent(KeyOf(i.slug, i.offset), i)), desk, i, m.answers);
  }

  /** What the later tick does to a store that held nothing. */
  lemma SecondTickSends(cfg: Config, desk: Desk, w: Watch, win: Window, m: Moment, d: Direction, i: Intent)
    requires cfg.tick > 0.0 && AtRest(w, false) && MayAct(cfg, w, false, win, m, NOTHING, d) && i == IntentOn(cfg, w, win, m, d)
    requires Plan(desk, i, 1).Ok? && |Plan(desk, i, 1).value| == 1 && m.answers(0)(1).Accepted?
    ensures var row := Plan(desk, i, 1).value[0];
            && row.id == Slot(desk, i, 0)
            && TickOne(cfg, desk, w, false, win, m, NOTHING).effects ==
                 [SaveIntent(KeyOf(i.slug, i.offset), i)]
                 + [SaveRow(row), Place(row.id, m.answers(0)(1)), SaveRow(Settled(row, m.answers(0)(1)))]
  {
    ActsOnSide(cfg, desk, w, win, m, NOTHING, d);
    SendsOne(desk, ReadAndDecide(w, m), m, i, NOTHING);
  }

  lemma Then(desk: Desk, r: Run, e: Event, next: Run, rest: seq<Event>)
    requires r.cfg.tick > 0.0 && Enabled(r, e) && next == Step(desk, r, e) && next.cfg.tick > 0.0 && Possible(desk, next, rest)
    ensures Possible(desk, r, [e] + rest) && Final(desk, r, [e] + rest) == Final(desk, next, rest)
  {
    assert ([e] + rest)[1..] == rest;
  }

  function OpportunityRun(win: Window, first: Moment, second: Moment): seq<Event> {
    [Boot(first.market.slug, [])] + ([Tick(win, first, None)] + ([Tick(win, second, None)] + []))
  }

  /** The engine with the window fired, and nothing else done. */
  lemma AfterTwo(cfg: Config, desk: Desk, win: Window, first: Moment) returns (r: Run, r': Run)
    requires cfg.Valid() && cfg.tradable && win in cfg.windows && HasOpened(win, first)
    requires (cfg.limitMode ==> PriceMet(NewWatch(WindowOpen), win, first)) && (cfg.bufferOn ==> BufferMet(NewWatch(WindowOpen), win, first))
    ensures Enabled(Start(cfg), Boot(first.market.slug, [])) && r == Step(desk, Start(cfg), Boot(first.market.slug, []))
    ensures Enabled(r, Tick(win, first, None)) && r' == Step(desk, r, Tick(win, first, None))
    ensures r'.world == NOTHING && r'.eng.submitted == {} && KeyAt(win, first) in r'.eng.states
    ensures r'.eng.states[KeyAt(win, first)] == FiredBy(cfg, win, first)
  {
    AfterBoot(cfg, desk, first.market.slug, win);
    r := Step(desk, Start(cfg), Boot(first.market.slug, []));
    FirstTick(cfg, desk, win, first, r.world);
    r' := Step(desk, r, Tick(win, first, None));
  }

  /** What the third event leaves of a store that held nothing. */
  lemma AfterThree(desk: Desk, r: Run, win: Window, m: Moment, d: Direction, i: Intent) returns (r': Run)
    requires r.cfg.tick > 0.0 && r.cfg.tradable && win in r.cfg.windows && r.world == NOTHING
    requires KeyAt(win, m) in r.eng.states && r.eng.submitted == {} && AtRest(r.eng.states[KeyAt(win, m)], false)
    requires var w := r.eng.states[KeyAt(win, m)]; MayAct(r.cfg, w, false, win, m, NOTHING, d) && i == IntentOn(r.cfg, w, win, m, d)
    requires Plan(desk, i, 1).Ok? && |Plan(desk, i, 1).value| == 1 && m.answers(0)(1).Accepted?
    ensures Enabled(r, Tick(win, m, None)) && r' == Step(desk, r, Tick(win, m, None))
    ensures var id := Slot(desk, i, 0);
            && r'.world.rows.Keys == {id} && r'.world.rows[id].state.Submitted? && r'.world.accepted == [id]
            && r'.world.intents == map[KeyOf(i.slug, i.offset) := i]
  {
    SecondTickSends(r.cfg, desk, r.eng.states[KeyAt(win, m)], win, m, d, i);
    var row, answer := Plan(desk, i, 1).value[0], m.answers(0)(1);
    var save, rest := SaveIntent(KeyOf(i.slug, i.offset), i), [SaveRow(row), Place(row.id, answer), SaveRow(Settled(row, answer))];
    ApplyAllCons(r.world, save, rest);
    Three([], Apply(r.world, save), SaveRow(row), Place(row.id, answer), SaveRow(Settled(row, answer)));
    r' := Step(desk, r, Tick(win, m, None));
    assert r'.world == ApplyAll(r.world, [save] + rest);
  }

  /** Opened, fired on one tick, decided and sent on the next: the run is possible, and the order is on record and at the venue. */
  lemma MajorityOrderReached(cfg: Config, desk: Desk, win: Window, first: Moment, second: Moment, d: Direction)
    requires Opportunity(cfg, desk, win, first, second, d)
    ensures Possible(desk, Start(cfg), OpportunityRun(win, first, second))
    ensures var r := Final(desk, Start(cfg), OpportunityRun(win, first, second));
            var i := IntentOn(cfg, FiredBy(cfg, win, first), win, second, d);
            var id := Slot(desk, i, 0);
            && r.world.rows.Keys == {id} && r.world.rows[id].state.Submitted? && r.world.accepted == [id]
            && r.world.intents == map[KeyOf(i.slug, i.offset) := i]
  {
    var r1, r2 := AfterTwo(cfg, desk, win, first);
    FirstTick(cfg, desk, win, first, NOTHING);
    var r3 := AfterThree(desk, r2, win, second, d, IntentOn(cfg, FiredBy(cfg, win, first), win, second, d));
    Then(desk, r2, Tick(win, second, None), r3, []);
    Then(desk, r1, Tick(win, first, None), r2, [Tick(win, second, None)] + []);
    Then(desk, Start(cfg), Boot(first.market.slug, []), r1, [Tick(win, first, None)] + ([Tick(win, second, None)] + []));
  }

  const WIN: Window := Window(60, 0.0, 0.5, 0.5, 10.0, 0.1, 0.9)
  const CONFIG: Config := Config(true, false, false, [WIN], 0.01)
  const DESK: Desk := Desk(1.0, 1.0, MAJORITY_ENGINE)

  function MomentAt(now: real, quote: Quote): Moment {
    var market := Market("m", 300, Risk.Active, None, None, None, {});
    var health := Health(true, Risk.Verified, true, false, 0, 0.0, 0, false, false, true, true, true, [], None);
    Moment(now, market, health, Quote(None, None), quote, k => n => Accepted("v"))
  }

  lemma LadderOfOne(size: real)
    requires size == 10.0
    ensures Split.Ladder(size, 1, DESK.minimum, DESK.step).Ok? && |Split.Ladder(size, 1, DESK.minimum, DESK.step).value| == 1
  {
    assert size == Money.Steps(10, 1.0);
    Money.FixedIffOnGrid(size, 1.0);
  }

  /** There are such moments: a minute before the close, UP bid at 0.50 against 0.25. */
  lemma OpportunityExists()
    ensures Opportunity(CONFIG, DESK, WIN, MomentAt(240.0, Quote(None, None)), MomentAt(241.0, Quote(Some(0.5), Some(0.25))), Up)
  {
    assert 0.5 == Money.Steps(50, 0.01);
    Money.FixedIffOnGrid(0.5, 0.01);
    LadderOfOne(10.0);
  }

  /**
   A restart puts a persisted lock back under any configuration, one that no longer has its window
   included: the window is held, locked on the intent's side, and spent.
   */
  lemma LockOutlivesConfiguration(desk: Desk, r: Run, next: Config, slug: string, offsets: seq<nat>, offset: nat)
    requires r.cfg.tick > 0.0 && next.tick > 0.0 && Lists(offsets, r.world.intents, slug) && KeyOf(slug, offset) in r.world.intents
    ensures var r' := Step(desk, Step(desk, r, Crash(next)), Boot(slug, offsets));
            && (slug, offset) in r'.eng.states && (slug, offset) in r'.eng.submitted
            && r'.eng.states[(slug, offset)].side == Some(r.world.intents[KeyOf(slug, offset)].direction)
  {
    var open := Opening(next, Engine(map[], {}), slug, |next.windows|);
    RestoringLeaves(open, r.world.intents, slug, offsets, (slug, offset));
  }
}
