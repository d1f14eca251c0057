/** Queries over the two tables: the member table and the transaction log.
    They stand for the `find` calls on the demo array and for the
    `select ... eq(...)` queries against the database. */
module Tables {
  import opened Types

  /** The column a member query filters on. */
  datatype Key = ById(id: MemberId) | ByDni(dni: string)

  predicate Matches(m: Member, k: Key) {
    match k
    case ById(id) => m.id == id
    case ByDni(dni) => m.dni == dni
  }

  /** `members.find(m => ...)`: the position of the first member matching `k`. */
  function FindFirst(ms: seq<Member>, k: Key): (r: Option<nat>)
    ensures r.Some? ==> r.value < |ms| && Matches(ms[r.value], k)
    ensures r.Some? ==> forall j :: 0 <= j < r.value ==> !Matches(ms[j], k)
    ensures r.None? <==> forall j :: 0 <= j < |ms| ==> !Matches(ms[j], k)
  {
    if ms == [] then None
    else if Matches(ms[0], k) then Some(0)
    else match FindFirst(ms[1..], k)
      case None => None
      case Some(i) => Some(i + 1)
  }

  /** `searchMemberByDni`: the first member with this DNI, or null. */
  function SearchByDni(ms: seq<Member>, dni: string): (r: Option<Member>)
    ensures r.Some? ==> exists i :: 0 <= i < |ms| && ms[i] == r.value && r.value.dni == dni &&
                                    forall j :: 0 <= j < i ==> ms[j].dni != dni
    ensures r.None? <==> forall m :: m in ms ==> m.dni != dni
  {
    match FindFirst(ms, ByDni(dni))
    case None => None
    case Some(i) => Some(ms[i])
  }

  /** Lookups depend on ids and DNIs only, so balance updates do not move them. */
  predicate SameKeys(ms: seq<Member>, ns: seq<Member>) {
    |ms| == |ns| &&
    forall i :: 0 <= i < |ms| ==> ms[i].id == ns[i].id && ms[i].dni == ns[i].dni
  }

  lemma FindFirstSameKeys(ms: seq<Member>, ns: seq<Member>, k: Key)
    requires SameKeys(ms, ns)
    ensures FindFirst(ms, k) == FindFirst(ns, k)
  {
    var a, b := FindFirst(ms, k), FindFirst(ns, k);
    if a.Some? {
      assert Matches(ns[a.value], k);
    }
    if b.Some? {
      assert Matches(ms[b.value], k);
    }
  }

  /** A member appended at the end is found by a key no earlier member has. */
  lemma FindFirstAppend(ms: seq<Member>, m: Member, k: Key)
    ensures FindFirst(ms + [m], k) ==
      if FindFirst(ms, k).Some? then FindFirst(ms, k)
      else if Matches(m, k) then Some(|ms|)
      else None
  {
    var ns := ms + [m];
    assert forall j :: 0 <= j < |ms| ==> ns[j] == ms[j];
    if FindFirst(ms, k).None? && Matches(m, k) {
      assert Matches(ns[|ms|], k);
    }
  }

  /** Registration order, newest first: the database's
      `order('created_at', { ascending: false })`. */
  function NewestFirst(ms: seq<Member>): (r: seq<Member>)
    ensures |r| == |ms|
    ensures forall i :: 0 <= i < |ms| ==> r[i] == ms[|ms| - 1 - i]
  {
    if ms == [] then [] else [ms[|ms| - 1]] + NewestFirst(ms[..|ms| - 1])
  }

  /** The sum of the amounts of `id`'s transactions. */
  function BalanceOf(log: seq<Transaction>, id: MemberId): int {
    if log == [] then 0
    else BalanceOf(log[..|log| - 1], id)
         + (if log[|log| - 1].memberId == id then log[|log| - 1].amount else 0)
  }

  /** Appending a row moves only its own member's sum, and by its amount. */
  lemma BalanceOfAppend(log: seq<Transaction>, t: Transaction, id: MemberId)
    ensures BalanceOf(log + [t], id) ==
      BalanceOf(log, id) + (if t.memberId == id then t.amount else 0)
  {
    assert (log + [t])[..|log|] == log;
  }

  /** A member no row refers to has a zero sum. */
  lemma {:induction false} BalanceOfUnreferenced(log: seq<Transaction>, id: MemberId)
    requires forall k :: 0 <= k < |log| ==> log[k].memberId != id
    ensures BalanceOf(log, id) == 0
  {
    if log != [] {
      BalanceOfUnreferenced(log[..|log| - 1], id);
    }
  }

  /** The number of rows whose description is `d`. */
  function CountDescription(log: seq<Transaction>, d: string): nat {
    if log == [] then 0
    else CountDescription(log[..|log| - 1], d)
         + (if log[|log| - 1].description == d then 1 else 0)
  }

  lemma CountDescriptionAppend(log: seq<Transaction>, t: Transaction, d: string)
    ensures CountDescription(log + [t], d) ==
      CountDescription(log, d) + (if t.description == d then 1 else 0)
  {
    assert (log + [t])[..|log|] == log;
  }

  /** Some row has description `d`. */
  predicate Described(log: seq<Transaction>, d: string) {
    exists k :: 0 <= k < |log| && log[k].description == d
  }

  /** Counting and searching agree: the count is positive exactly when a row
      carries the description. */
  lemma {:induction false} CountPositiveIffDescribed(log: seq<Transaction>, d: string)
    ensures CountDescription(log, d) > 0 <==> Described(log, d)
  {
    if log != [] {
      var init := log[..|log| - 1];
      CountPositiveIffDescribed(init, d);
      if Described(init, d) {
        var k :| 0 <= k < |init| && init[k].description == d;
        assert log[k].description == d;
      }
      if Described(log, d) && log[|log| - 1].description != d {
        var k :| 0 <= k < |log| && log[k].description == d;
        assert init[k].description == d;
      }
    }
  }
}
