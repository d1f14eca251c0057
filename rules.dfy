/** The fixed policy of the programme: how a purchase converts to points and
    how ledger descriptions are written. */
module Rules {

  /** Currency units of purchase per point. */
  const PointsRate: nat := 1000

  /** `Math.floor(amountPurchased / 1000)`: the points a purchase earns.
      The result is the largest whole number of complete 1000-unit blocks. */
  function PointsFor(amount: nat): (p: nat)
    ensures p * PointsRate <= amount < (p + 1) * PointsRate
  {
    amount / PointsRate
  }

  /** A purchase earns something exactly when it reaches the rate. */
  lemma EarnsIffReachesRate(amount: nat)
    ensures PointsFor(amount) > 0 <==> amount >= PointsRate
  {
  }

  const TicketPrefix: string := "Ticket #"
  const RedeemPrefix: string := "Redeemed: "

  /** Description of an EARN row; it doubles as the ticket's idempotency key. */
  function TicketDescription(ticket: string): string {
    TicketPrefix + ticket
  }

  /** Description of a REDEEM row. */
  function RedeemDescription(title: string): string {
    RedeemPrefix + title
  }

  /** Distinct tickets give distinct keys, so the key identifies the ticket. */
  lemma TicketDescriptionInjective(a: string, b: string)
    ensures TicketDescription(a) == TicketDescription(b) <==> a == b
  {
    if TicketDescription(a) == TicketDescription(b) {
      assert a == TicketDescription(a)[|TicketPrefix|..];
      assert b == TicketDescription(b)[|TicketPrefix|..];
    }
  }

  /** No redemption row can ever be mistaken for a used ticket. */
  lemma RedeemNeverLooksLikeTicket(title: string, ticket: string)
    ensures RedeemDescription(title) != TicketDescription(ticket)
  {
    assert RedeemDescription(title)[0] == 'R';
    assert TicketDescription(ticket)[0] == 'T';
  }
}
