/** The opening reference of a market: the venue's own texts, in whatever order they arrive. */
module OpeningReference {
  import Decimals
  import opened Wrappers
  import Rotation

  /** The venue's exact text as a price; None where it is not a positive number. */
  function OfficialPrice(text: string): (p: Option<Decimals.Dec>)
    ensures p.Some? ==> p.value.Value() > 0.0
  {
    match Decimals.ParseDec(text)
    case Some(d) => if d.Value() > 0.0 then Some(d) else None
    case None => None
  }

  /** Any positive decimal is read as itself, to the digit; zero and what is below is no price. */
  lemma PublishedPriceIsRead(d: Decimals.Dec)
    ensures OfficialPrice(Decimals.DecText(d)) == if d.Value() > 0.0 then Some(d) else None
  {
    Decimals.DecRoundTrip(d);
  }

  /** A settled market's published final price, and the one window its close opens. */
  datatype PreviousClose = PreviousClose(settled: int, opens: int, price: Decimals.Dec, raw: string) {
    predicate Valid() {
      opens == settled + Rotation.DURATION && OfficialPrice(raw) == Some(price)
    }
  }

  /** One metadata answer about a settled market: its final-price text, and the price that text is. */
  datatype Offer = Offer(settled: int, raw: string, price: Option<Decimals.Dec>)

  function OfferOf(finalPrice: Option<string>, settled: int): Offer {
    match finalPrice
    case None => Offer(settled, "", None)
    case Some(text) => Offer(settled, text, OfficialPrice(text))
  }

  /** The price is the one the text says. */
  predicate Genuine(o: Offer) {
    o.price.Some? ==> OfficialPrice(o.raw) == o.price
  }

  function EntryOf(o: Offer): PreviousClose
    requires o.price.Some?
  {
    PreviousClose(o.settled, o.settled + Rotation.DURATION, o.price.value, o.raw)
  }

  /** What the cache holds after an offer, and what the offer is answered with. */
  function Offered(held: Option<PreviousClose>, o: Offer): (Option<PreviousClose>, Option<PreviousClose>) {
    if o.price.None? then (held, None)
    else if held.Some? && held.value.settled > o.settled then (held, None)
    else if held.Some? && held.value.settled == o.settled then (held, held)
    else (Some(EntryOf(o)), Some(EntryOf(o)))
  }

  function AfterOffers(offers: seq<Offer>): Option<PreviousClose> {
    if offers == [] then None else Offered(AfterOffers(offers[..|offers| - 1]), offers[|offers| - 1]).0
  }

  /** Offer `k` is usable, no usable offer settles later, and none before it settles as late. */
  predicate FirstOfTheNewest(offers: seq<Offer>, k: int)
    requires 0 <= k < |offers|
  {
    && offers[k].price.Some?
    && (forall j | 0 <= j < |offers| && offers[j].price.Some? :: offers[j].settled <= offers[k].settled)
    && (forall j | 0 <= j < k && offers[j].price.Some? :: offers[j].settled < offers[k].settled)
  }

  /** Nothing usable was offered. */
  predicate NoneUsable(offers: seq<Offer>) {
    forall j | 0 <= j < |offers| :: offers[j].price.None?
  }

  /**
   Whatever order metadata arrives in, the cache holds the first usable offer among those of the
   newest settled market; it is empty exactly when nothing usable was offered.
   */
  lemma {:induction false} HoldsFirstOfTheNewest(offers: seq<Offer>) returns (k: int)
    ensures AfterOffers(offers).None? <==> NoneUsable(offers)
    ensures AfterOffers(offers).Some? ==>
              && 0 <= k < |offers| && FirstOfTheNewest(offers, k)
              && AfterOffers(offers).value == EntryOf(offers[k]) && (Genuine(offers[k]) ==> EntryOf(offers[k]).Valid())
    decreases |offers|
  {
    k := 0;
    if offers != [] {
      var n := |offers| - 1;
      k := HoldsFirstOfTheNewest(offers[..n]);
      var held := AfterOffers(offers[..n]);
      if held.None? || (offers[n].price.Some? && offers[n].settled > held.value.settled) {
        k := n;
      }
    }
  }

  function ForWindow(held: Option<PreviousClose>, window: int): Option<PreviousClose> {
    if held.Some? && held.value.opens == window then held else None
  }

  /** The cache answers for one window only: the one that the newest settled market's close opens. */
  lemma AnswersItsWindow(offers: seq<Offer>, window: int)
    ensures ForWindow(AfterOffers(offers), window).Some? <==>
              exists k | 0 <= k < |offers| :: FirstOfTheNewest(offers, k) && offers[k].settled + 300 == window
    ensures ForWindow(AfterOffers(offers), window).Some? ==> ForWindow(AfterOffers(offers), window) == AfterOffers(offers)
  {
    var k := HoldsFirstOfTheNewest(offers);
    if AfterOffers(offers).Some? {
      forall j | 0 <= j < |offers| && FirstOfTheNewest(offers, j)
        ensures offers[j].settled == offers[k].settled
      {
      }
    }
  }

  /** An offer is answered with what the cache then holds, unless it says no price or is of an older market. */
  lemma OfferAnswered(held: Option<PreviousClose>, o: Offer)
    ensures var (after, answer) := Offered(held, o);
            && (answer.None? <==> o.price.None? || (held.Some? && o.settled < held.value.settled))
            && (answer.Some? ==> answer == after) && (answer.None? ==> after == held)
  {
  }

  datatype Source = FromMetadata | FromPreviousClose

  function Resolve(ptbText: Option<string>, window: int, previous: Option<PreviousClose>): Option<(Decimals.Dec, Source)> {
    var official := if ptbText.Some? then OfficialPrice(ptbText.value) else None;
    if official.Some? then Some((official.value, FromMetadata))
    else if previous.Some? && previous.value.opens == window then Some((previous.value.price, FromPreviousClose))
    else None
  }

  /**
   A resolution is one of the two official texts and nothing else: the market's own metadata, or,
   only when that is no price, the final price published for the market whose close opens this
   window. It is positive, and None means neither text was there.
   */
  lemma {:induction false} ResolutionIsOfficial(ptbText: Option<string>, window: int, offers: seq<Offer>)
    requires forall k | 0 <= k < |offers| :: Genuine(offers[k])
    ensures match Resolve(ptbText, window, ForWindow(AfterOffers(offers), window))
            case Some((price, FromMetadata)) => ptbText.Some? && OfficialPrice(ptbText.value) == Some(price) && price.Value() > 0.0
            case Some((price, FromPreviousClose)) =>
              && price.Value() > 0.0
              && (ptbText.None? || OfficialPrice(ptbText.value).None?)
              && (exists k | 0 <= k < |offers| ::
                    FirstOfTheNewest(offers, k) && offers[k].settled + Rotation.DURATION == window && offers[k].price == Some(price))
            case None =>
              && (ptbText.None? || OfficialPrice(ptbText.value).None?)
              && (forall k | 0 <= k < |offers| && FirstOfTheNewest(offers, k) :: offers[k].settled + Rotation.DURATION != window)
  {
    var k := HoldsFirstOfTheNewest(offers);
    var held := AfterOffers(offers);
    if held.Some? {
      forall j | 0 <= j < |offers| && FirstOfTheNewest(offers, j)
        ensures offers[j].settled == offers[k].settled
      {
      }
    }
  }

  class PreviousClosePtbCache {
    var latest: Option<PreviousClose>

    constructor ()
      ensures latest.None?
    {
      latest := None;
    }

    method TakeOffer(finalPrice: Option<string>, settled: int) returns (entry: Option<PreviousClose>)
      modifies this
      ensures (latest, entry) == Offered(old(latest), OfferOf(finalPrice, settled))
    {
      if finalPrice.None? { return None; }
      var price := OfficialPrice(finalPrice.value);
      if price.None? { return None; }
      if latest.Some? {
        if latest.value.settled > settled { return None; }
        if latest.value.settled == settled { return latest; }
      }
      entry := Some(PreviousClose(settled, settled + Rotation.DURATION, price.value, finalPrice.value));
      latest := entry;
    }

    method EntryFor(window: int) returns (entry: Option<PreviousClose>)
      ensures entry == ForWindow(latest, window)
    {
      entry := if latest.Some? && latest.value.opens == window then latest else None;
    }
  }
}
