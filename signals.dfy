/** The two mean-reversion entry rules of the advisor and the order in which
    they are tried on a processed bar. */
module Signals {
  import opened Market

  /** What the tick handler does once the bands are known. */
  datatype Action = GoLong | GoShort | Stay

  /** The last closed bar touched or pierced the lower band, and the bid has
      since recovered above it. */
  predicate LongSignal(lastClose: real, q: Quote, bands: BandSnapshot)
    requires bands.Complete()
  {
    lastClose <= bands.lower[1] && q.bid > bands.lower[1]
  }

  /** The last closed bar touched or pierced the upper band, and the ask has
      since fallen back below it. */
  predicate ShortSignal(lastClose: real, q: Quote, bands: BandSnapshot)
    requires bands.Complete()
  {
    lastClose >= bands.upper[1] && q.ask < bands.upper[1]
  }

  /** The long rule is tried first; the short rule only when the long rule
      fails, so at most one of them acts on a bar. */
  function Decide(lastClose: real, q: Quote, bands: BandSnapshot): (a: Action)
    requires bands.Complete()
    ensures a == GoLong <==> LongSignal(lastClose, q, bands)
    ensures a == GoShort <==> !LongSignal(lastClose, q, bands) && ShortSignal(lastClose, q, bands)
    ensures a == Stay <==> !LongSignal(lastClose, q, bands) && !ShortSignal(lastClose, q, bands)
  {
    if LongSignal(lastClose, q, bands) then GoLong
    else if ShortSignal(lastClose, q, bands) then GoShort
    else Stay
  }

  /** Under the ordering the strategy assumes (upper band above the lower one,
      ask not below bid) the two rules can never hold together, so the
      priority of the long rule only matters on degenerate data: a close at or
      below the lower band can reach the upper band only when the two bands
      meet, and then the bid above the band puts the ask above it too. */
  lemma SignalsExclusive(lastClose: real, q: Quote, bands: BandSnapshot)
    requires bands.Complete()
    requires bands.lower[1] <= bands.upper[1]
    requires q.bid <= q.ask
    ensures !(LongSignal(lastClose, q, bands) && ShortSignal(lastClose, q, bands))
  {
  }

  /** The middle band is copied from the indicator but never takes part in a
      decision. */
  lemma DecideIgnoresMiddle(lastClose: real, q: Quote, bands: BandSnapshot, middle: seq<real>)
    requires bands.Complete() && |middle| == BandDepth
    ensures Decide(lastClose, q, bands.(middle := middle)) == Decide(lastClose, q, bands)
  {
  }

  /** A bar closing 0.0005 below the lower band followed by a bid back above it
      is a long entry; with the bid still on the close price nothing fires. */
  lemma BounceScenario()
    ensures var bands := BandSnapshot([1.2000, 1.2000, 1.2000], [1.2050, 1.2050, 1.2050], [1.1955, 1.1955, 1.1955]);
            Decide(1.1950, Quote(1.1960, 1.1962), bands) == GoLong &&
            Decide(1.1950, Quote(1.1950, 1.1952), bands) == Stay
  {
  }
}
