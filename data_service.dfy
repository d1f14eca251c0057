/** The data service as the application sees it: one store object per
    backend, chosen once at start-up. `Ledger` is the database backend, whose
    tables hold the members and the points transactions; `DemoLedger` is the
    in-memory member array used when no database is configured. */
module DataService {
  import opened Types
  import opened Rules
  import opened Tables
  import opened LedgerSpec
  import opened DemoSpec

  class Ledger {
    var members: seq<Member>
    var log: seq<Transaction>
    var nextId: MemberId

    /** The tables as one value. */
    function Snapshot(): Store
      reads this
    {
      Store(members, log, nextId)
    }

    /** Every balance is the sum of its member's transactions, no ticket is
        credited twice, and the table keys hold. */
    ghost predicate Valid()
      reads this
    {
      Consistent(Snapshot())
    }

    /** Empty tables, as the setup script leaves them. */
    constructor ()
      ensures Valid() && Snapshot() == EmptyStore
    {
      members, log, nextId := [], [], 0;
      new;
      EmptyStoreConsistent();
    }

    /** `addPoints`: check the amount, look the ticket up, insert the EARN row,
        then read the balance and write it back raised. */
    method AddPoints(memberId: MemberId, amount: nat, ticket: string) returns (r: EarnResponse)
      requires Valid()
      modifies this
      ensures Valid()
      ensures (Snapshot(), r) == LedgerSpec.AddPoints(old(Snapshot()), memberId, amount, ticket)
    {
      ghost var before := Snapshot();
      ghost var spec := LedgerSpec.AddPoints(before, memberId, amount, ticket);
      var points := PointsFor(amount);
      if points <= 0 {
        assert spec == (before, EarnRejected(AmountTooLow));
        return EarnRejected(AmountTooLow);
      }
      // The ticket lookup: `.single()` returns a row only when exactly one matches.
      var matching := CountDescription(log, TicketDescription(ticket));
      if matching == 1 {
        assert spec == (before, EarnRejected(InvoiceAlreadyUsed));
        return EarnRejected(InvoiceAlreadyUsed);
      }
      // The insert: `member_id` must reference an existing member.
      var owner := FindFirst(members, ById(memberId));
      if owner.None? {
        assert spec == (before, EarnRejected(UnknownMemberReference));
        return EarnRejected(UnknownMemberReference);
      }
      log := log + [EarnRow(memberId, points, ticket)];
      // Read the balance, then write the raised balance back.
      var i := owner.value;
      var newBalance := members[i].balance + points;
      members := members[i := members[i].(balance := newBalance)];
      r := Earned(points);
      assert spec == (Snapshot(), r);
      AddPointsKeepsConsistent(before, memberId, amount, ticket);
    }

    /** `redeemReward`: read the balance, refuse when it is missing or short,
        insert the REDEEM row, then write the lowered balance back. */
    method RedeemReward(memberId: MemberId, reward: Reward) returns (r: Outcome)
      requires Valid()
      modifies this
      ensures Valid()
      ensures (Snapshot(), r) == LedgerSpec.RedeemReward(old(Snapshot()), memberId, reward)
    {
      ghost var before := Snapshot();
      ghost var spec := LedgerSpec.RedeemReward(before, memberId, reward);
      var owner := FindFirst(members, ById(memberId));
      if owner.None? || members[owner.value].balance < reward.pointsCost {
        assert spec == (before, Rejected(InsufficientPoints));
        return Rejected(InsufficientPoints);
      }
      var i := owner.value;
      var current := members[i].balance;
      log := log + [RedeemRow(memberId, reward)];
      members := members[i := members[i].(balance := current - reward.pointsCost)];
      r := Ok;
      assert spec == (Snapshot(), r);
      RedeemKeepsConsistent(before, memberId, reward);
    }

    /** `registerMember`: insert a row with a zero balance under a fresh id. */
    method RegisterMember(details: MemberInsert) returns (r: Outcome)
      requires Valid()
      modifies this
      ensures Valid()
      ensures (Snapshot(), r) == LedgerSpec.RegisterMember(old(Snapshot()), details)
    {
      var taken := SearchByDni(members, details.dni);
      if taken.Some? {
        return Rejected(DniAlreadyRegistered);
      }
      members := members + [NewMember(nextId, details)];
      nextId := nextId + 1;
      r := Ok;
      RegisterKeepsConsistent(old(Snapshot()), details);
    }

    /** `searchMemberByDni`: `.single()` on the DNI. Since the DNI is a unique
        key, the member found is the only one with that DNI. */
    function SearchMemberByDni(dni: string): (r: Option<Member>)
      reads this
      requires Valid()
      ensures r.Some? ==> r.value in members && r.value.dni == dni
      ensures r.Some? ==> forall m :: m in members && m.dni == dni ==> m == r.value
      ensures r.None? <==> forall m :: m in members ==> m.dni != dni
    {
      SearchByDni(members, dni)
    }

    /** `getAllMembers`: every member, newest registration first. */
    function GetAllMembers(): (r: seq<Member>)
      reads this
      ensures |r| == |members|
      ensures forall i :: 0 <= i < |r| ==> r[i] == members[|members| - 1 - i]
    {
      NewestFirst(members)
    }
  }

  class DemoLedger {
    var members: seq<Member>
    var nextId: MemberId

    ghost predicate Valid()
      reads this
    {
      DemoValid(members, nextId)
    }

    /** The three seed members. */
    constructor ()
      ensures Valid() && members == SeedMembers && nextId == SeedNextId
    {
      members, nextId := SeedMembers, SeedNextId;
      new;
      SeedValid();
    }

    /** `addPoints` in demo mode: find the member and raise the balance in
        place; the ticket number is not looked at. */
    method AddPoints(memberId: MemberId, amount: nat, ticket: string) returns (r: EarnResponse)
      requires Valid()
      modifies this
      ensures Valid() && nextId == old(nextId)
      ensures (members, r) == DemoAddPoints(old(members), memberId, amount)
    {
      var points := PointsFor(amount);
      if points <= 0 {
        return EarnRejected(AmountTooLow);
      }
      var found := FindFirst(members, ById(memberId));
      if found.Some? {
        var i := found.value;
        members := members[i := members[i].(balance := members[i].balance + points)];
        return Earned(points);
      }
      r := EarnRejected(MemberNotFound);
    }

    /** `redeemReward` in demo mode: lower the balance in place when it
        covers the cost. */
    method RedeemReward(memberId: MemberId, reward: Reward) returns (r: Outcome)
      requires Valid()
      modifies this
      ensures Valid() && nextId == old(nextId)
      ensures (members, r) == DemoRedeemReward(old(members), memberId, reward)
    {
      var found := FindFirst(members, ById(memberId));
      if found.Some? {
        var i := found.value;
        if members[i].balance >= reward.pointsCost {
          members := members[i := members[i].(balance := members[i].balance - reward.pointsCost)];
          return Ok;
        }
        return Rejected(InsufficientPoints);
      }
      r := Rejected(MemberNotFound);
    }

    /** `registerMember` in demo mode: push the new member; nothing is
        checked, so a DNI may be registered twice. */
    method RegisterMember(details: MemberInsert) returns (r: Outcome)
      requires Valid()
      modifies this
      ensures Valid() && r == Ok
      ensures members == old(members) + [NewMember(old(nextId), details)] && nextId == old(nextId) + 1
    {
      DemoRegisterKeepsValid(members, nextId, details);
      members := members + [NewMember(nextId, details)];
      nextId := nextId + 1;
      r := Ok;
    }

    /** `searchMemberByDni` in demo mode: the first member with that DNI. */
    function SearchMemberByDni(dni: string): (r: Option<Member>)
      reads this
      ensures r.Some? ==> exists i :: 0 <= i < |members| && members[i] == r.value && r.value.dni == dni &&
                                      forall j :: 0 <= j < i ==> members[j].dni != dni
      ensures r.None? <==> forall m :: m in members ==> m.dni != dni
    {
      SearchByDni(members, dni)
    }

    /** `getAllMembers` in demo mode: a copy of the array, oldest first. */
    function GetAllMembers(): (r: seq<Member>)
      reads this
      ensures r == members
    {
      members
    }
  }

  /** What a caller of the database store can rely on across calls: a
      replayed ticket is refused, and the balance moved once. */
  method ReplayScenario(ledger: Ledger, memberId: MemberId, amount: nat, ticket: string)
    requires ledger.Valid()
    modifies ledger
  {
    var first := ledger.AddPoints(memberId, amount, ticket);
    if first.Earned? {
      var balanceAfterFirst := ledger.members;
      var second := ledger.AddPoints(memberId, amount, ticket);
      assert second == EarnRejected(InvoiceAlreadyUsed);
      assert ledger.members == balanceAfterFirst;
    }
  }
}
