/** The quick quote on the landing page (`src/pages/Landing.tsx`): a flat
    distance of 15.5 km, a $9.90 base fee, $1.80 per km, and a multiplier per
    service level that scales only the distance term. The quote is not
    rounded. */
module Landing {
  import opened Types

  const QuoteDistanceKm: real := 15.5
  const QuoteBaseFee: real := 9.90
  const QuoteKmRate: real := 1.80

  /** The multiplier of each service level on the landing page. */
  function Multiplier(level: ServiceLevel): (r: real)
    ensures r >= 1.0
    ensures level == Standard <==> r == 1.0
  {
    match level
    case Standard => 1.0
    case SameDay => 1.2
    case Vip => 1.8
  }

  /** The estimated price shown for a level: the base fee plus the distance
      cost scaled by the level's multiplier. */
  function QuotePrice(level: ServiceLevel): (r: real)
    ensures r - QuoteBaseFee == QuoteDistanceKm * QuoteKmRate * Multiplier(level)
    ensures r >= QuoteBaseFee + QuoteDistanceKm * QuoteKmRate
  {
    QuoteBaseFee + QuoteDistanceKm * QuoteKmRate * Multiplier(level)
  }

  /** The three quotes: $37.80, $43.38 and $60.12. */
  lemma QuoteValues()
    ensures QuotePrice(Standard) == 37.80
    ensures QuotePrice(SameDay) == 43.38
    ensures QuotePrice(Vip) == 60.12
  {
  }

  /** A faster level never costs less, and the three quotes are distinct. */
  lemma QuoteIncreasing(a: ServiceLevel, b: ServiceLevel)
    ensures Multiplier(a) < Multiplier(b) <==> QuotePrice(a) < QuotePrice(b)
  {
  }

  class LandingPage {
    var pickup: string
    var dropoff: string
    var selectedService: ServiceLevel
    var showQuote: bool

    /** Both fields empty, the standard level, no quote. */
    constructor()
      ensures pickup == "" && dropoff == "" && selectedService == Standard && !showQuote
    {
      pickup := "";
      dropoff := "";
      selectedService := Standard;
      showQuote := false;
    }

    /** The quote card is rendered while `showQuote` holds and both
        addresses are non-empty. */
    predicate QuoteVisible()
      reads this
    {
      showQuote && pickup != "" && dropoff != ""
    }

    method SetPickup(text: string)
      modifies this
      ensures pickup == text
      ensures dropoff == old(dropoff) && selectedService == old(selectedService) && showQuote == old(showQuote)
    {
      pickup := text;
    }

    method SetDropoff(text: string)
      modifies this
      ensures dropoff == text
      ensures pickup == old(pickup) && selectedService == old(selectedService) && showQuote == old(showQuote)
    {
      dropoff := text;
    }

    method SelectService(level: ServiceLevel)
      modifies this
      ensures selectedService == level
      ensures pickup == old(pickup) && dropoff == old(dropoff) && showQuote == old(showQuote)
    {
      selectedService := level;
    }

    /** `handleQuote`: the quote is switched on only when both addresses are
        given; otherwise nothing changes. Afterwards the card is visible
        exactly when both addresses are given or it already was. */
    method HandleQuote()
      modifies this
      ensures showQuote == (old(showQuote) || (pickup != "" && dropoff != ""))
      ensures pickup == old(pickup) && dropoff == old(dropoff) && selectedService == old(selectedService)
      ensures QuoteVisible() <==> pickup != "" && dropoff != ""
    {
      if pickup != "" && dropoff != "" {
        showQuote := true;
      }
    }
  }
}
