# Loyalty points ledger

A Dafny model of the data service behind a loyalty programme for trade
members (masons, electricians, plumbers and so on). Members earn points from
purchase tickets and spend them on catalog rewards. The service has two
backends, chosen once when the application starts:

- the database backend, with a `members` table and an append-only
  `points_transactions` log;
- the demo backend, an in-memory array of three seed members, used when no
  database is configured.

The model covers the service operations: earning points for a ticket,
redeeming a reward, registering a member, finding a member by DNI (the
national identity number) and listing all members.

Files and modules:

- `types.dfy` (`Types`): the records (member, registration details, reward,
  transaction) and the service's responses.
- `rules.dfy` (`Rules`): the conversion of a purchase amount to points, at
  1000 currency units per point, and the description texts `Ticket #<n>` and
  `Redeemed: <title>`.
- `tables.dfy` (`Tables`): queries over the two tables. These are the
  first-match lookup, newest-first listing, the per-member sum of a log, and
  counting rows by description.
- `ledger_spec.dfy` (`LedgerSpec`): the database backend as a pure state
  machine over a `Store` (members, log, next fresh id). It also defines the
  invariant `Consistent`:
  - every balance equals the sum of that member's transactions;
  - no balance is negative;
  - no ticket has been credited twice;
  - the primary key, the unique DNI key and the log's foreign key hold.

  The lemmas prove that every operation keeps this invariant.
- `demo_spec.dfy` (`DemoSpec`): the demo backend as functions on the member
  array. Its lemmas compare it with the database backend.
- `data_service.dfy` (`DataService`): the two backends as classes whose
  fields the methods update in place:
  - `Ledger` for the database, with the fields `members`, `log` and `nextId`;
  - `DemoLedger` for the demo array.

  Each state-changing method keeps its class's `Valid()`, and its new state
  and response are given by a specification function or expression. The
  search and listing members are functions with their own contracts.

How the service reports outcomes: the source returns `{ success, points?,
error? }` with a message string. The model returns `EarnResponse` or
`Outcome`, with one `LedgerError` per distinct message:

- `AmountTooLow`: "Amount too low to earn points."
- `InvoiceAlreadyUsed`: "Invoice number already used."
- `InsufficientPoints`: "Insufficient points"
- `MemberNotFound`: "Member not found"
- `UnknownMemberReference`: the database's error for an insert that the
  foreign key refuses.
- `DniAlreadyRegistered`: the database's error for an insert that the unique
  key refuses.

Behaviour of the code worth noting:

- On the database path, crediting an unknown member is not refused by an
  explicit member check. The insert of the EARN row fails on the foreign key
  `member_id REFERENCES members(id)`, and the database's error is returned.
- On the database path, redeeming for a missing member answers "Insufficient
  points".
- The ticket check is global, not per member: a ticket used by one member is
  refused for every member.
- The duplicate-ticket lookup uses `.single()`, which yields a row only when
  exactly one row matches. The model keeps that exact test (count equals 1).
  `LedgerSpec.DuplicateGuardMeansTicketUsed` proves that, under the invariant,
  this test is the same as "the ticket has been used".

## Model

| member | source | states |
|---|---|---|
| `Rules.PointsFor` | services/dataService.ts:92 | the points are the floor of amount/1000: `p*1000 <= amount < (p+1)*1000` |
| `Rules.EarnsIffReachesRate` | services/dataService.ts:92-94 | a purchase earns points exactly when it is at least 1000 |
| `Rules.TicketDescriptionInjective` | services/dataService.ts:104 | `Ticket #<n>` descriptions of two tickets are equal iff the tickets are |
| `Rules.RedeemNeverLooksLikeTicket` | services/dataService.ts:154-159 | a `Redeemed: <title>` row never matches a ticket lookup |
| `Tables.FindFirst` | services/dataService.ts:130 | `find` returns the first matching position; none iff no member matches |
| `Tables.SearchByDni` | services/dataService.ts:64 | the first member with that DNI, or none iff no member has it |
| `Tables.FindFirstSameKeys` | services/dataService.ts:121-124 | a balance update does not change what a lookup by id or DNI finds |
| `Tables.CountPositiveIffDescribed` | services/dataService.ts:101-105 | the count of rows with a description is positive iff some row has it |
| `Tables.BalanceOfUnreferenced` | views/Setup.tsx:24-31 | a member no transaction references has a ledger sum of zero |
| `LedgerSpec.EmptyStoreConsistent` | views/Setup.tsx:13-31 | freshly created tables satisfy the ledger invariant |
| `LedgerSpec.AddPoints` | services/dataService.ts:91-127 | points reported are floor(amount/1000) on success and 0 on failure; a low amount is rejected first; failures change nothing; success appends exactly one EARN row `Ticket #<n>` of +points, raises only the target's balance, by exactly the points, and changes no other field of any member |
| `LedgerSpec.RedeemReward` | services/dataService.ts:146-167 | succeeds iff the member exists and the balance covers the cost; otherwise "Insufficient points" with nothing changed; success appends one REDEEM row of -cost, lowers only that balance by the cost, leaves it non-negative, and changes no other field of any member |
| `LedgerSpec.RegisterMember` | services/dataService.ts:75-79 | succeeds iff the DNI is not registered; success appends one member with a fresh id and balance 0 and leaves the log unchanged |
| `LedgerSpec.DuplicateGuardMeansTicketUsed` | services/dataService.ts:101-107 | in a consistent store the `.single()` guard fires iff some row already carries `Ticket #<n>` |
| `LedgerSpec.AddPointsSucceedsIff` | services/dataService.ts:91-127 | addPoints succeeds iff points > 0, the ticket is unused by anyone, and the member exists |
| `LedgerSpec.UsedTicketRejected` | services/dataService.ts:101-107 | in a consistent store, a ticket any row already carries is refused with "Invoice number already used." for every member, and nothing changes |
| `LedgerSpec.UnknownMemberRejected` | services/dataService.ts:110-117 | an unused ticket credited to an id no member has is refused by the foreign key, and nothing changes |
| `LedgerSpec.ReplayedTicketRejected` | services/dataService.ts:101-115 | after a ticket is credited, the next attempt to credit it again, for any member and any amount that earns points, fails with "Invoice number already used."; any later consistent store whose log still holds the row is covered by `LedgerSpec.UsedTicketRejected` |
| `LedgerSpec.AddPointsMovesOneSum` | services/dataService.ts:110-124 | a credit raises the credited member's ledger sum by exactly the points, and no other member's |
| `LedgerSpec.RedeemMovesOneSum` | services/dataService.ts:154-164 | a redemption lowers the member's ledger sum by exactly the cost, and no other member's |
| `LedgerSpec.BalanceChangeKeepsSums` | services/dataService.ts:110-124 | changing one balance by the amount of the one row appended for that member keeps every balance equal to its ledger sum |
| `LedgerSpec.AddPointsKeepsConsistent` | services/dataService.ts:101-126 | addPoints preserves the ledger invariant (balances equal sums, non-negative, tickets credited once, keys) |
| `LedgerSpec.RedeemKeepsConsistent` | services/dataService.ts:148-166 | redeemReward preserves the ledger invariant |
| `LedgerSpec.RegisterKeepsConsistent` | services/dataService.ts:75-79 | registerMember preserves the ledger invariant |
| `LedgerSpec.RegisteredMemberIsFound` | services/dataService.ts:77 | a registered member is then found by DNI, with balance 0 and a ledger sum of 0 |
| `DemoSpec.SeedValid` | services/dataService.ts:5-9 | the seed members have distinct ids and non-negative balances |
| `DemoSpec.DemoAddPoints` | services/dataService.ts:129-135 | demo addPoints succeeds iff points > 0 and the member exists; failures report AmountTooLow or "Member not found" and change nothing; success raises only that balance by the points and changes no other field |
| `DemoSpec.DemoRedeemReward` | services/dataService.ts:169-178 | demo redeem succeeds iff the member exists and the balance covers the cost; a missing member gives "Member not found", a short balance "Insufficient points"; success lowers only that balance by the cost and changes no other field |
| `DemoSpec.DemoReplayCreditsTwice` | services/dataService.ts:129-135 | the demo does not look at the ticket: the same purchase credited twice raises the balance twice |
| `DemoSpec.DemoRegisterKeepsValid` | services/dataService.ts:82-88 | pushing a member with a fresh id and balance 0 keeps ids distinct and balances non-negative |
| `DemoSpec.DemoAddPointsAgreesOnMembers` | services/dataService.ts:91-135 | for an unused ticket both backends leave the same member table and report the same points |
| `DemoSpec.DemoRedeemAgreesOnMembers` | services/dataService.ts:146-178 | both backends leave the same member table and agree on success |
| `DataService.Ledger.constructor` | views/Setup.tsx:13-31 | the store starts with empty tables and satisfies the invariant |
| `DataService.Ledger.AddPoints` | services/dataService.ts:91-127 | the step-by-step insert then balance write leaves the tables as `LedgerSpec.AddPoints` says and keeps the invariant |
| `DataService.Ledger.RedeemReward` | services/dataService.ts:146-167 | the step-by-step read, insert and balance write leaves the tables as `LedgerSpec.RedeemReward` says and keeps the invariant |
| `DataService.Ledger.RegisterMember` | services/dataService.ts:75-79 | the insert leaves the tables as `LedgerSpec.RegisterMember` says and keeps the invariant |
| `DataService.Ledger.SearchMemberByDni` | services/dataService.ts:54-62 | returns a member with that DNI, the only one there is; none iff no member has it |
| `DataService.Ledger.GetAllMembers` | services/dataService.ts:67-70 | all members, newest registration first |
| `DataService.DemoLedger.constructor` | services/dataService.ts:5-9 | the demo array starts as the three seed members |
| `DataService.DemoLedger.AddPoints` | services/dataService.ts:129-135 | raises the balance in place as `DemoSpec.DemoAddPoints` says and keeps the array valid |
| `DataService.DemoLedger.RedeemReward` | services/dataService.ts:169-178 | lowers the balance in place as `DemoSpec.DemoRedeemReward` says and keeps the array valid |
| `DataService.DemoLedger.RegisterMember` | services/dataService.ts:82-88 | always succeeds; appends the member with a fresh id and balance 0 |
| `DataService.DemoLedger.SearchMemberByDni` | services/dataService.ts:64 | the first member in the array with that DNI; none iff no member has it |
| `DataService.DemoLedger.GetAllMembers` | services/dataService.ts:72 | the members in registration order |

## Left out

- `getDashboardStats` is left out. It depends on today's date, a remote count, and hard-coded figures.
- `getRewards` and the reward catalog are left out. Rewards reach the model as arguments.
- The views, the sidebar, the login screen and the Supabase client are presentation or transport, and are left out.
- Purchase amounts are whole, non-negative numbers. The float parsing of the form field is not modelled.
- Member ids are a counter that each store advances. This stands for the database's random UUIDs and the demo's `Math.random` strings. Timestamps are not modelled, so newest-first is modelled as reverse registration order.
- The store is sequential and reliable. Concurrency is not modelled: the read-then-write of the balance can lose an update under concurrent calls.
- Storage failures after the checks are not modelled. Examples: an ignored error from the balance update (services/dataService.ts:124, :164), and the `|| 0` fallback when the balance read fails (:122).
- `DataService.Ledger.AddPoints`: does not model the 32-bit range of the `INTEGER` balance column, because balances are unbounded integers.
- `DataService.Ledger.SearchMemberByDni`: models `.single()` as "the first match". `.single()` also yields null when several rows match, but the unique DNI key excludes that case.
- Reward `image_url`, `stock` and `description`, member `created_at`, and transaction ids are omitted. No ledger operation reads them.
