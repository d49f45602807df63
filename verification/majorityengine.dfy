/** The MAJORITY engine as the program holds it: state objects in a dictionary, and a set of spent windows. */
module MajorityEngines {
  import opened Backend
  import Submit
  import opened Trigger
  import opened Watches
  import opened Majority
  import opened MajorityRuns
  import opened Wrappers
  import Risk

  class MajorityEngine {
    const cfg: Config
    const backend: Backend
    const submitter: Submit.Submitter
    var states: map<Key, MajorityMarketState>
    var submitted: set<Key>

    /** No two windows share a state object. */
    ghost predicate Valid()
      reads this, backend
    {
      && cfg.Valid() && DeskOk(submitter.desk) && submitter.backend == backend && Keyed(backend.rows)
      && (forall j, k | j in states && k in states && j != k :: states[j] != states[k])
    }

    function View(): Engine
      reads this, set k | k in states :: states[k]
    {
      Engine(map k | k in states :: states[k].AsWatch(), submitted)
    }

    constructor (cfg: Config, backend: Backend, submitter: Submit.Submitter)
      requires cfg.Valid() && DeskOk(submitter.desk) && submitter.backend == backend && Keyed(backend.rows)
      ensures Valid() && View() == Engine(map[], {}) && this.backend == backend && this.cfg == cfg && this.submitter == submitter
    {
      this.cfg, this.backend, this.submitter, states, submitted := cfg, backend, submitter, map[], {};
    }

    // ── one window's steps ──────────────────────────────────────────────────

    method BufferGate(s: MajorityMarketState, win: Window, m: Moment)
      modifies s
      ensures s.AsWatch() == Majority.BufferGate(cfg, old(s.AsWatch()), win, m)
    {
      var mode := ModeFor(win, cfg.bufferOn);
      if mode == Direct {
        s.Fire(m.now, None, None);
        return;
      }
      if mode == BtcTrigger {
        if m.market.lastBtc.None? {
          s.AwaitTrigger();
          return;
        }
        var spot := m.market.lastBtc.value;
        if s.levels.None? { s.CaptureLevels(spot, win.buffer); }
        var levels := s.levels.value;
        if spot >= levels.upper {
          s.Fire(m.now, Some(levels.upper), Some(spot));
        } else if spot <= levels.lower {
          s.Fire(m.now, Some(levels.lower), Some(spot));
        } else {
          s.AwaitTrigger();
        }
        return;
      }
      if m.market.ptb.None? || m.market.twap.None? {
        s.AwaitTrigger();
        return;
      }
      if Distance(m.market.twap.value, m.market.ptb.value) >= win.buffer {
        s.Fire(m.now, None, None);
      } else {
        s.AwaitTrigger();
      }
    }

    method EvaluateEntry(s: MajorityMarketState, win: Window, m: Moment)
      modifies s
      ensures s.AsWatch() == Majority.EvaluateEntry(cfg, old(s.AsWatch()), win, m)
    {
      if cfg.limitMode && !s.priceReached {
        var snapshot := Book(m.triggerQuote.up, m.triggerQuote.down, m.now, true);
        if !IsTriggered(snapshot, win.triggerPrice) {
          s.AwaitTrigger();
          return;
        }
        s.LatchPriceTrigger();
      }
      BufferGate(s, win, m);
    }

    method FreshReadAndDetermine(s: MajorityMarketState, m: Moment)
      modifies s
      ensures s.AsWatch() == ReadAndDecide(old(s.AsWatch()), m)
    {
      s.MarkReading();
      var recent := s.triggeredAt.Some? && m.now - s.triggeredAt.value <= FRESH_MAX_AGE;
      var snapshot := Book(m.quote.up, m.quote.down, m.now, recent);
      var verdict := Determine(snapshot);
      s.MarkDetermined(verdict, snapshot);
      if verdict.direction.Some? {
        var raised := s.SelectSide(verdict, snapshot, m.now);
        if raised { s.MarkNoTrade(); }
      } else {
        s.MarkNoTrade();
      }
    }

    /** Price, intent, risk gates and the final gate: reads only. */
    method Propose(s: MajorityMarketState, key: Key, win: Window, m: Moment) returns (intent: Option<Intent>)
      requires Valid() && key == KeyAt(win, m) && key !in submitted
      ensures intent == Approved(cfg, s.AsWatch(), win, m, backend.State())
    {
      if s.side.None? { return None; }
      var direction := s.side.value;
      var price := if cfg.limitMode then Some(win.target) else LivePrice(cfg, s.AsWatch(), win, direction);
      if price.None? { return None; }
      var i := IntentFor(s.AsWatch(), win, m, direction, price.value);
      var onRecord := KeyOf(m.market.slug, win.offset) in backend.intents;
      var context := ContextFor(i, win, m, onRecord);
      var verdict := Risk.Evaluate(context);
      Risk.OneVerdict(verdict, Risk.Judge(context), context);
      if verdict.Denied? { return None; }
      if DirectionGate(cfg, s.AsWatch(), win, m, i, verdict, key in submitted, onRecord).Some? { return None; }
      return Some(i);
    }

    /** Propose, persist, mark spent, send: in that order. */
    method SubmitWindow(s: MajorityMarketState, key: Key, win: Window, m: Moment)
      requires Valid() && key == KeyAt(win, m) && key !in submitted && s.stage.SideSelected? && win.shares > 0.0
      modifies this`submitted, s, backend
      ensures var t := Acting(cfg, submitter.desk, old(s.AsWatch()), win, m, old(backend.State()));
              && backend.Did(t.effects) && s.AsWatch() == t.watch
              && submitted == (if t.submitted then old(submitted) + {key} else old(submitted))
      ensures Keyed(backend.rows)
    {
      ghost var log, w, before := backend.journal, backend.State(), s.AsWatch();
      var intent := Propose(s, key, win, m);
      if intent.None? {
        s.MarkNoTrade();
        return;
      }
      var i := intent.value;
      ghost var save := SaveIntent(KeyOf(i.slug, i.offset), i);
      ApprovedIsSanctioned(cfg, before, win, m, w);
      var isNew := backend.SaveIntent(KeyOf(i.slug, i.offset), i);
      assert isNew;
      s.MarkIntentCreated();
      submitted := submitted + {key};
      ghost var w1 := backend.State();
      ghost var row := OneOrder(w1, submitter.desk, i, m.answers);
      var placed := submitter.Submit(i, 1, m.market.phase.Active?, m.answers);
      ghost var es := Submit.SubmitEffects(w1, submitter.desk, i, 1, true, m.answers).value;
      ApplyAllCons(w, save, es);
      Assoc(log, [save], es);
      if placed.value != [] {
        s.MarkState(Sent);
      } else {
        s.MarkNoTrade();
      }
    }

    /** One window's tick, on its state object. */
    method Advance(s: MajorityMarketState, key: Key, win: Window, m: Moment)
      requires Valid() && key == KeyAt(win, m) && win.shares > 0.0
      modifies this`submitted, s, backend
      ensures Keyed(backend.rows)
      ensures var t := TickOne(cfg, submitter.desk, old(s.AsWatch()), key in old(submitted), win, m, old(backend.State()));
              && backend.Did(t.effects) && s.AsWatch() == t.watch
              && submitted == (if t.submitted then old(submitted) + {key} else old(submitted))
      ensures m.now < (m.market.closeTs - win.offset) as real ==> backend.Did([]) && s.AsWatch() == old(s.AsWatch()) && submitted == old(submitted)
    {
      ghost var w := s.AsWatch();
      if IsOver(s.stage) || key in submitted || m.now < (m.market.closeTs - win.offset) as real {
        assert Dormant(w, key in submitted, win, m);
        return;
      }
      s.OpenWindow();
      if s.triggeredAt.None? {
        EvaluateEntry(s, win, m);
        return;
      }
      if s.stage == Fired { FreshReadAndDetermine(s, m); }
      if s.stage == SideSelected { SubmitWindow(s, key, win, m); }
    }

    /** One window, one tick: a window without state is passed over, and no other window is touched. */
    method TickWindow(win: Window, m: Moment)
      requires Valid() && win in cfg.windows
      modifies this`submitted, backend, set k | k in states :: states[k]
      ensures Valid()
      ensures var key := KeyAt(win, m);
              if key !in old(states) then View() == old(View()) && backend.Did([])
              else
                var t := TickOne(cfg, submitter.desk, old(View()).states[key], key in old(submitted), win, m, old(backend.State()));
                && backend.Did(t.effects)
                && View() == Engine(old(View()).states[key := t.watch], if t.submitted then old(submitted) + {key} else old(submitted))
    {
      var key := KeyAt(win, m);
      if key !in states { return; }
      Advance(states[key], key, win, m);
      OneWatchMoved(key);
    }

    /** With one window's object changed and no other, the view differs in that window alone. */
    twostate lemma OneWatchMoved(key: Key)
      requires states == old(states) && key in states && forall k | k in states && k != key :: unchanged(states[k])
      ensures View().states == old(View()).states[key := states[key].AsWatch()]
    {
    }

    /** Give a window a brand-new object. */
    method Put(key: Key, stage: Stage)
      requires Valid()
      modifies this`states
      ensures Valid() && submitted == old(submitted) && states.Keys == old(states.Keys) + {key} && fresh(states[key])
      ensures forall k | k in old(states) && k != key :: states[k] == old(states[k])
      ensures View() == Engine(old(View()).states[key := NewWatch(stage)], old(submitted))
    {
      var s := new MajorityMarketState(stage);
      states := states[key := s];
    }

    /** A fresh object for every configured window; nothing is reused. */
    method OpenMarket(slug: string)
      requires Valid()
      modifies this`states
      ensures Valid() && View() == Opening(cfg, old(View()), slug, |cfg.windows|)
      ensures forall k | k in states :: (k in old(states) && states[k] == old(states[k])) || fresh(states[k])
    {
      ghost var before := View();
      for k := 0 to |cfg.windows|
        invariant Valid() && View() == Opening(cfg, before, slug, k)
        invariant forall k | k in states :: (k in old(states) && states[k] == old(states[k])) || fresh(states[k])
      {
        Put((slug, cfg.windows[k].offset), if cfg.tradable then WaitingWindow else Off);
      }
    }

    method Relock(key: Key, i: Intent)
      requires Valid() && key in states
      modifies this`submitted, states[key]
      ensures Valid()
      ensures View() == Engine(old(View()).states[key := Restored(old(View()).states[key], i.direction, i.createdAt)], old(submitted) + {key})
    {
      states[key].ReconstructLockedSide(i.direction, i.createdAt);
      submitted := submitted + {key};
    }

    /** The persisted lock put back on one window, whose object is created when it has none. */
    method RestoreOne(key: Key, i: Intent)
      requires Valid()
      modifies this, set k | k in states :: states[k]
      ensures Valid() && states.Keys == old(states.Keys) + {key}
      ensures forall k | k in states :: (k in old(states) && states[k] == old(states[k])) || fresh(states[k])
      ensures View() == Engine(old(View()).states[key := RestoredWatch(old(View()), key, i)], old(submitted) + {key})
    {
      ghost var before := View();
      if key !in states {
        Put(key, WaitingWindow);
        assert RestoredWatch(View(), key, i) == RestoredWatch(before, key, i);
      }
      ghost var held := View();
      Relock(key, i);
      assert held.states[key := RestoredWatch(before, key, i)] == before.states[key := RestoredWatch(before, key, i)];
    }

    /** The lock of every persisted intent of the market, put back. */
    method RestoreFromIntents(slug: string) returns (ghost offsets: seq<nat>)
      requires Valid()
      modifies this, set k | k in states :: states[k]
      ensures Valid() && Lists(offsets, backend.intents, slug)
      ensures View() == Restoring(old(View()), backend.intents, slug, offsets)
    {
      ghost var before, intents := View(), backend.intents;
      var listed := IntentsFor(slug);
      offsets := listed;
      assert listed[..0] == [];
      for n := 0 to |listed|
        invariant Valid() && backend.intents == intents
        invariant View() == Restoring(before, intents, slug, listed[..n])
        invariant forall k | k in states :: (k in old(states) && states[k] == old(states[k])) || fresh(states[k])
      {
        assert listed[..n + 1][..n] == listed[..n] && listed[n] in listed;
        RestoreOne((slug, listed[n]), backend.intents[KeyOf(slug, listed[n])]);
      }
      assert listed[..|listed|] == listed;
    }

    /** Offsets of the market's persisted MAJORITY intents. */
    method IntentsFor(slug: string) returns (offsets: seq<nat>)
      ensures Lists(offsets, backend.intents, slug)
    {
      var todo := set k | k in backend.intents && k.engine == MAJORITY_ENGINE && k.slug == slug;
      offsets := [];
      while todo != {}
        invariant forall k | k in todo :: k in backend.intents && k.engine == MAJORITY_ENGINE && k.slug == slug
        invariant forall o :: o in offsets <==> KeyOf(slug, o) in backend.intents && KeyOf(slug, o) !in todo
        decreases todo
      {
        var k :| k in todo;
        assert k == KeyOf(slug, k.offset);
        offsets := offsets + [k.offset];
        todo := todo - {k};
      }
    }

    /** Every window of the market, thrown away. */
    method DropMarket(slug: string)
      requires Valid()
      modifies this
      ensures Valid() && View() == Dropping(old(View()), slug)
    {
      ghost var before := View();
      var gone := set k | k in states && k.0 == slug;
      states := states - gone;
      submitted := submitted - gone;
      assert View().submitted == Dropping(before, slug).submitted;
      forall k
        ensures k in View().states <==> k in Dropping(before, slug).states
        ensures k in View().states ==> View().states[k] == Dropping(before, slug).states[k]
      {
      }
      assert View().states == Dropping(before, slug).states;
    }
  }
}
