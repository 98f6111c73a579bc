/** The broker as the advisor sees it: the account's list of open positions,
    the record of every trade request it has been sent, and an oracle that
    decides whether each submission is accepted. */
module Broker {
  import opened Market

  class Gateway {
    /** The account's open positions in the broker's index order. */
    var positions: seq<Position>
    /** Every request submitted so far, in submission order. */
    var journal: seq<TradeRequest>
    /** The broker's answer to submission number k (counted from 0). */
    const verdict: nat -> bool

    constructor (inventory: seq<Position>, verdict: nat -> bool)
      ensures positions == inventory && journal == [] && this.verdict == verdict
    {
      positions := inventory;
      journal := [];
      this.verdict := verdict;
    }

    /** Submits a deal that opens a new position. The outcome is the verdict on
        this submission. An accepted deal adds its position at the top of the
        list, the broker numbering it by the submission. */
    method SendOpen(req: TradeRequest) returns (ok: bool)
      modifies this
      ensures ok == verdict(|old(journal)|)
      ensures journal == old(journal) + [req]
      ensures positions == old(positions) + (if ok then [NewPosition(req, |old(journal)|)] else [])
    {
      ok := verdict(|journal|);
      if ok {
        positions := positions + [NewPosition(req, |journal|)];
      }
      journal := journal + [req];
    }

    /** Submits a deal that offsets the position selected at index i. When the
        broker accepts it that entry leaves the list and the entries above it
        move down by one. */
    method SendClose(req: TradeRequest, i: nat) returns (ok: bool)
      requires i < |positions|
      modifies this
      ensures ok == verdict(|old(journal)|)
      ensures journal == old(journal) + [req]
      ensures positions == if ok then old(positions[..i] + positions[i + 1..]) else old(positions)
    {
      ok := verdict(|journal|);
      journal := journal + [req];
      if ok {
        positions := positions[..i] + positions[i + 1..];
      }
    }
  }
}
