/** Record shapes of the loyalty programme: members, rewards and the
    points transactions that make up the ledger. */
module Types {

  datatype Option<+T> = None | Some(value: T)

  /** Member identifiers. The database draws a random UUID and the demo store
      a random string; both are modelled as a counter the store advances. */
  type MemberId = nat

  /** A registered member. `balance` is `points_balance`. */
  datatype Member = Member(
    id: MemberId,
    dni: string,
    fullName: string,
    phone: string,
    specialty: string,
    balance: int)

  /** What the registration form supplies: a member without id and balance. */
  datatype MemberInsert = MemberInsert(
    dni: string,
    fullName: string,
    phone: string,
    specialty: string)

  /** A catalog reward; only its title and cost matter to the ledger. */
  datatype Reward = Reward(id: string, title: string, pointsCost: int)

  datatype TxKind = Earn | Redeem

  /** One row of the points transaction log. */
  datatype Transaction = Transaction(
    memberId: MemberId,
    kind: TxKind,
    amount: int,
    description: string)

  /** The failures the service reports, one per distinct cause. */
  datatype LedgerError =
    | AmountTooLow            // "Amount too low to earn points."
    | InvoiceAlreadyUsed      // "Invoice number already used."
    | InsufficientPoints      // "Insufficient points"
    | MemberNotFound          // "Member not found"
    | UnknownMemberReference  // the log's foreign key to members(id) refuses the insert
    | DniAlreadyRegistered    // the members table's unique key on dni refuses the insert

  /** Result of addPoints: `{ success, points, error }`. */
  datatype EarnResponse = Earned(points: nat) | EarnRejected(error: LedgerError)
  {
    /** The `points` field of the response: zero on every failure. */
    function Points(): nat {
      if Earned? then points else 0
    }
  }

  /** Result of redeemReward and registerMember: `{ success, error }`. */
  datatype Outcome = Ok | Rejected(error: LedgerError)
}
