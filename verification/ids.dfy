/**
 Derived order identities: chains, generations, and the text the venue and the store see.
 */
module Ids {
  import opened Text
  import opened Wrappers

  const DEFAULT_ENGINE: string := "TWAP"

  /** One submission slot, shared by every order of its reprice chain. */
  datatype ChainKey = ChainKey(engine: string, slug: string, offset: nat, index: nat)

  datatype OrderId = OrderId(chain: ChainKey, generation: nat) {
    function Next(): OrderId {
      OrderId(chain, generation + 1)
    }
  }

  function EnginePrefix(engine: string): string {
    if engine == DEFAULT_ENGINE then "" else engine + ":"
  }

  function ChainText(k: ChainKey): string {
    EnginePrefix(k.engine) + k.slug + ":" + NatText(k.offset) + ":" + NatText(k.index)
  }

  function OrderText(id: OrderId): string {
    ChainText(id.chain) + ":" + NatText(id.generation)
  }

  predicate Plain(k: ChainKey) {
    ':' !in k.engine && ':' !in k.slug
  }

  function Parts(id: OrderId): (parts: seq<string>)
    ensures |parts| >= 4
    ensures Plain(id.chain) ==> Clean(parts, ':')
  {
    (if id.chain.engine == DEFAULT_ENGINE then [] else [id.chain.engine])
    + [id.chain.slug, NatText(id.chain.offset), NatText(id.chain.index), NatText(id.generation)]
  }

  lemma OrderTextIsJoin(id: OrderId)
    ensures OrderText(id) == Join(Parts(id), ':')
  {
    var a, b, c, d := id.chain.slug, NatText(id.chain.offset), NatText(id.chain.index), NatText(id.generation);
    assert [c, d][1..] == [d] && [b, c, d][1..] == [c, d] && [a, b, c, d][1..] == [b, c, d];
    assert Join([c, d], ':') == c + ":" + Join([d], ':');
    assert Join([b, c, d], ':') == b + ":" + (c + ":" + d);
    var tail := Join([a, b, c, d], ':');
    assert tail == a + ":" + (b + ":" + (c + ":" + d));
    assert tail == a + ":" + b + ":" + c + ":" + d;
    if id.chain.engine != DEFAULT_ENGINE {
      var e := id.chain.engine;
      assert Parts(id) == [e, a, b, c, d];
      assert [e, a, b, c, d][1..] == [a, b, c, d];
    } else {
      assert Parts(id) == [a, b, c, d];
      assert "" + a == a;
    }
  }

  /** Two orders share an id text only when they are the same order, whichever engines own them. */
  lemma OrderTextInjective(a: OrderId, b: OrderId)
    requires Plain(a.chain) && Plain(b.chain)
    requires OrderText(a) == OrderText(b)
    ensures a == b
  {
    OrderTextIsJoin(a);
    OrderTextIsJoin(b);
    SplitJoin(Parts(a), ':');
    SplitJoin(Parts(b), ':');
    var p, q := Parts(a), Parts(b);
    assert p == q;
    var n := |p|;
    NatTextInjective(a.generation, b.generation) by { assert p[n - 1] == q[n - 1]; }
    NatTextInjective(a.chain.index, b.chain.index) by { assert p[n - 2] == q[n - 2]; }
    NatTextInjective(a.chain.offset, b.chain.offset) by { assert p[n - 3] == q[n - 3]; }
    assert p[n - 4] == q[n - 4];
    assert p[0] == q[0];
  }

  /** The colon-free requirement is needed: a slug holding a colon imitates another engine's id. */
  lemma ColonCollides()
    ensures exists a: OrderId, b: OrderId :: a != b && OrderText(a) == OrderText(b)
  {
    var a := OrderId(ChainKey(DEFAULT_ENGINE, "MAJORITY:m", 45, 0), 0);
    var b := OrderId(ChainKey("MAJORITY", "m", 45, 0), 0);
    assert "" + "MAJORITY:m" == ("MAJORITY" + ":") + "m";
    assert OrderText(a) == OrderText(b);
  }

  /** Advance the trailing generation of an id text; None where the code raises. */
  function NextGenerationText(text: string): Option<string> {
    match RPartition(text, ':')
    case None => None
    case Some((head, tail)) =>
      if head == "" || tail == "" || !AllDigits(tail) then None
      else Some(head + ":" + NatText(NatValue(tail) + 1))
  }

  /** `int(text.rsplit(":", 1)[1])` on a text whose last part is a numeral. */
  function LastNumber(text: string): Option<nat> {
    match RPartition(text, ':')
    case None => None
    case Some((_, tail)) => if tail == "" || !AllDigits(tail) then None else Some(NatValue(tail))
  }

  lemma LastNumberOf(head: string, n: nat)
    ensures LastNumber(head + ":" + NatText(n)) == Some(n)
  {
    RPartitionAt(head, NatText(n), ':');
    NatTextValue(n);
  }

  /** Advancing an id text advances exactly the generation; index and generation read back exactly. */
  lemma NextGenerationAdvances(id: OrderId)
    ensures NextGenerationText(OrderText(id)) == Some(OrderText(id.Next()))
    ensures LastNumber(OrderText(id.Next())) == Some(id.generation + 1)
    ensures LastNumber(ChainText(id.chain)) == Some(id.chain.index)
  {
    RPartitionAt(ChainText(id.chain), NatText(id.generation), ':');
    NatTextValue(id.generation);
    LastNumberOf(ChainText(id.chain), id.generation + 1);
    LastNumberOf(EnginePrefix(id.chain.engine) + id.chain.slug + ":" + NatText(id.chain.offset), id.chain.index);
  }

  /** The id the repricer derives for a successor, from the texts of the order it replaces. */
  function SuccessorId(order: OrderId): Option<OrderId> {
    match (LastNumber(ChainText(order.chain)), NextGenerationText(OrderText(order)))
    case (Some(index), Some(next)) =>
      (match LastNumber(next)
       case Some(g) => Some(OrderId(ChainKey(order.chain.engine, order.chain.slug, order.chain.offset, index), g))
       case None => None)
    case _ => None
  }

  /** The successor keeps the chain and takes the next generation. */
  lemma SuccessorIdIsNext(order: OrderId)
    ensures SuccessorId(order) == Some(order.Next())
    ensures Some(OrderText(order.Next())) == NextGenerationText(OrderText(order))
  {
    NextGenerationAdvances(order);
  }

  /** The test by which a paper trade recognises an order of market `m` from the order's id text. */
  predicate MatchesMarket(text: string, m: string) {
    StartsWith(text, m + ":") || Contains(text, ":" + m + ":")
  }

  /** The engine a paper fill is attributed to, read from the same text. */
  function MatchedEngine(text: string, m: string): string {
    if StartsWith(text, m + ":") then DEFAULT_ENGINE else Split(text, ':')[0]
  }

  /** A numeral as the ids write it: "45" is one, "007" is not. */
  predicate IsNumeral(s: string) {
    AllDigits(s) && s == NatText(NatValue(s))
  }

  lemma NumeralIsNumeral(k: nat)
    ensures IsNumeral(NatText(k))
  {
    NatTextValue(k);
  }

  /** A market name a paper trade cannot confuse with a window, an index or the order's own engine. */
  predicate Distinctive(m: string, engine: string) {
    ':' !in m && !IsNumeral(m) && (engine == DEFAULT_ENGINE || m != engine)
  }

  /** The text test selects exactly the market's orders and names the engine that placed them. */
  lemma MatchIsMarket(id: OrderId, m: string)
    requires Plain(id.chain) && Distinctive(m, id.chain.engine)
    ensures MatchesMarket(OrderText(id), m) <==> id.chain.slug == m
    ensures id.chain.slug == m ==> MatchedEngine(OrderText(id), m) == id.chain.engine
  {
    var parts, s, key := Parts(id), OrderText(id), ":" + m + ":";
    OrderTextIsJoin(id);
    SplitJoin(parts, ':');
    FirstPart(parts, m, ':');
    NumeralIsNumeral(id.chain.offset);
    NumeralIsNumeral(id.chain.index);
    if i :| 0 <= i <= |s| - |key| && OccursAt(s, key, i) {
      InnerOccurrence(parts, m, ':', i);
    }
    if id.chain.slug == m && id.chain.engine != DEFAULT_ENGINE {
      assert parts[1] == m;
      InnerPartOccurs(parts, 1, ':');
    }
  }

  /** A market named by a numeral captures every order of that window or index, whatever its market. */
  lemma NumeralMisfires(id: OrderId, m: string)
    requires m == NatText(id.chain.offset) || m == NatText(id.chain.index)
    ensures MatchesMarket(OrderText(id), m)
  {
    OrderTextIsJoin(id);
    var n := |Parts(id)|;
    assert Parts(id)[n - 3] == NatText(id.chain.offset) && Parts(id)[n - 2] == NatText(id.chain.index);
    InnerPartOccurs(Parts(id), if m == NatText(id.chain.offset) then n - 3 else n - 2, ':');
  }

  /** A market named as an engine captures every order of that engine. */
  lemma EngineNameMisfires(id: OrderId)
    requires Plain(id.chain) && id.chain.engine != DEFAULT_ENGINE
    ensures MatchesMarket(OrderText(id), id.chain.engine)
  {
    OrderTextIsJoin(id);
    FirstPart(Parts(id), id.chain.engine, ':');
  }

  /**
   The exact condition: over all orders of an engine, the test selects those of market `m` and no
   others exactly when `m` is no numeral the ids write and not that engine's own prefix.
   */
  lemma MatchExactlyWhen(m: string, engine: string)
    requires ':' !in m && ':' !in engine
    ensures (forall id: OrderId | Plain(id.chain) && id.chain.engine == engine :: MatchesMarket(OrderText(id), m) <==> id.chain.slug == m)
            <==> (forall k: nat :: m != NatText(k)) && (engine == DEFAULT_ENGINE || m != engine)
  {
    if k: nat :| m == NatText(k) {
      var id := OrderId(ChainKey(engine, m + "x", k, 0), 0);
      NumeralMisfires(id, m);
      assert Plain(id.chain) && id.chain.slug != m;
    } else if engine != DEFAULT_ENGINE && m == engine {
      var id := OrderId(ChainKey(engine, m + "x", 0, 0), 0);
      EngineNameMisfires(id);
      assert Plain(id.chain) && id.chain.slug != m;
    } else {
      forall id: OrderId | Plain(id.chain) && id.chain.engine == engine
        ensures MatchesMarket(OrderText(id), m) <==> id.chain.slug == m
      {
        MatchIsMarket(id, m);
      }
    }
  }
}
