/** Choosing an account: the least-inflight selector and the sticky router (src/routing). */
module Routing {
  import opened Records
  import opened FeeOracles
  import opened Cache
  import PoolProtocol

  datatype WalletState = WalletState(address: Address, inflightCount: nat, nonceCursor: nat, balanceWei: int, healthy: bool)

  // ----- the selector -----

  /** The fold: a later candidate wins only with strictly fewer transactions in flight. */
  function BestOf(best: WalletState, rest: seq<WalletState>): WalletState
    decreases |rest|
  {
    if rest == [] then best
    else BestOf(if rest[0].inflightCount < best.inflightCount then rest[0] else best, rest[1..])
  }

  function Pick(candidates: seq<WalletState>): Result<Address> {
    if candidates == [] then Err else Ok(BestOf(candidates[0], candidates[1..]).address)
  }

  /** The place of the first candidate with the fewest transactions in flight. */
  predicate IsFirstLeast(candidates: seq<WalletState>, i: nat) {
    && i < |candidates|
    && (forall j | 0 <= j < |candidates| :: candidates[i].inflightCount <= candidates[j].inflightCount)
    && (forall j | 0 <= j < i :: candidates[i].inflightCount < candidates[j].inflightCount)
  }

  lemma {:induction false} BestIsFirstLeast(seen: seq<WalletState>, i: nat, rest: seq<WalletState>) returns (k: nat)
    requires IsFirstLeast(seen, i)
    ensures IsFirstLeast(seen + rest, k) && BestOf(seen[i], rest) == (seen + rest)[k]
    decreases |rest|
  {
    if rest == [] {
      assert seen + rest == seen;
      k := i;
    } else {
      assert (seen + [rest[0]]) + rest[1..] == seen + rest;
      k := BestIsFirstLeast(seen + [rest[0]], if rest[0].inflightCount < seen[i].inflightCount then |seen| else i, rest[1..]);
    }
  }

  /** The selector picks the first least loaded candidate, and fails only without candidates. */
  lemma PicksFirstLeast(candidates: seq<WalletState>) returns (k: nat)
    requires candidates != []
    ensures IsFirstLeast(candidates, k) && Pick(candidates) == Ok(candidates[k].address)
  {
    assert [candidates[0]] + candidates[1..] == candidates;
    k := BestIsFirstLeast([candidates[0]], 0, candidates[1..]);
  }

  lemma FirstLeastIsUnique(candidates: seq<WalletState>, i: nat, j: nat)
    requires IsFirstLeast(candidates, i) && IsFirstLeast(candidates, j)
    ensures i == j
  {
    assert candidates[i].inflightCount <= candidates[j].inflightCount <= candidates[i].inflightCount;
  }

  // ----- the router -----

  function Healthy(candidates: seq<WalletState>): seq<WalletState> {
    if candidates == [] then []
    else (if candidates[0].healthy then [candidates[0]] else []) + Healthy(candidates[1..])
  }

  /** Unhealthy accounts are used only when there are no others. */
  function Choice(candidates: seq<WalletState>): seq<WalletState> {
    if Healthy(candidates) != [] then Healthy(candidates) else candidates
  }

  lemma {:induction false} HealthyAre(candidates: seq<WalletState>, c: WalletState)
    ensures c in Healthy(candidates) <==> c in candidates && c.healthy
  {
    if candidates != [] {
      HealthyAre(candidates[1..], c);
      assert candidates == [candidates[0]] + candidates[1..];
    }
  }

  /** What the selector prefers is one of the candidates. */
  lemma PickIsCandidate(candidates: seq<WalletState>) returns (c: WalletState)
    requires candidates != []
    ensures c in candidates && Pick(Choice(candidates)) == Ok(c.address)
  {
    var k := PicksFirstLeast(Choice(candidates));
    c := Choice(candidates)[k];
    HealthyAre(candidates, c);
  }

  class DefaultRouter {
    const cache: InMemoryCache

    constructor (cache: InMemoryCache)
      ensures this.cache == cache
    {
      this.cache := cache;
    }

    /** The pinned account of the key, or the preferred candidate, which an ordering key is then
        pinned to; either way an ordering key acquires a ref. */
    method Route(candidates: seq<WalletState>, orderingKey: Option<OrderingKey>) returns (r: Result<Address>)
      modifies cache`ordering
      ensures r.Err? <==> Pick(Choice(candidates)).Err?
      ensures candidates == [] ==> r == Err && cache.ordering == old(cache.ordering)
      ensures candidates != [] ==>
                && Pick(Choice(candidates)).Ok?
                && var prefer := Pick(Choice(candidates)).value;
                   && r == Ok(PoolProtocol.Target(old(cache.ordering), orderingKey, prefer))
                   && cache.ordering == PoolProtocol.BindSome(old(cache.ordering), orderingKey, prefer)
    {
      var prefer := Pick(Choice(candidates));
      if prefer.Err? {
        return Err;
      }
      if orderingKey.None? {
        return prefer;
      }
      var account := cache.BindOrdering(orderingKey.value, prefer.value);
      return Ok(account);
    }

    method Release(orderingKey: OrderingKey)
      modifies cache`ordering
      ensures cache.ordering == PoolProtocol.Release(old(cache.ordering), orderingKey)
    {
      cache.ReleaseOrdering(orderingKey);
    }
  }

  /** What the selector prefers is a healthy candidate whenever there is one, and no healthy candidate
      is less loaded. */
  lemma PrefersHealthy(candidates: seq<WalletState>, c: WalletState)
    requires c in candidates && c.healthy
    ensures Pick(Choice(candidates)).Ok?
    ensures exists w :: w in candidates && w.healthy && w.address == Pick(Choice(candidates)).value
                        && w.inflightCount <= c.inflightCount
  {
    HealthyAre(candidates, c);
    var pool := Choice(candidates);
    var k := PicksFirstLeast(pool);
    HealthyAre(candidates, pool[k]);
    var i :| 0 <= i < |pool| && pool[i] == c;
    assert pool[k] in candidates && pool[k].inflightCount <= pool[i].inflightCount;
  }

  // ----- fair spread -----

  /** The accounts as candidates: one after the other in a fixed order, all healthy. */
  function StatesOf(accounts: seq<Address>, counts: seq<nat>): seq<WalletState>
    requires |accounts| == |counts|
  {
    seq(|counts|, i requires 0 <= i < |counts| => WalletState(accounts[i], counts[i], 0, 0, true))
  }

  /** One unordered submit sent to account k: taken below the cap, unless the oracle, the store or the
      node refuses it; a refused one leaves the counts alone. */
  function SubmitOne(cap: int, counts: seq<nat>, k: nat, good: bool): seq<nat>
    requires k < |counts|
  {
    if good && counts[k] < cap then counts[k := counts[k] + 1] else counts
  }

  /** After n submits taken from equal counts: n / |counts| rounds, and the first n % |counts|
      accounts one more. */
  predicate Dealt(counts: seq<nat>, base: nat, n: nat) {
    |counts| > 0 && forall i | 0 <= i < |counts| :: counts[i] == base + n / |counts| + (if i < n % |counts| then 1 else 0)
  }

  lemma NextDeal(m: nat, n: nat)
    requires m > 0
    ensures n % m + 1 < m ==> (n + 1) / m == n / m && (n + 1) % m == n % m + 1
    ensures n % m + 1 == m ==> (n + 1) / m == n / m + 1 && (n + 1) % m == 0
  {
    assert n == m * (n / m) + n % m;
    if n % m + 1 < m {
      DivModUnique(m, n / m, n % m + 1);
    } else {
      assert n + 1 == m * (n / m + 1);
      DivModUnique(m, n / m + 1, 0);
    }
  }

  lemma DivModUnique(m: nat, q: nat, r: nat)
    requires r < m
    ensures (m * q + r) / m == q && (m * q + r) % m == r
  {
    var x := m * q + r;
    assert x == m * (x / m) + x % m;
    if x / m > q {
      MulMonotone(m, q + 1, x / m);
    } else if x / m < q {
      MulMonotone(m, x / m + 1, q);
    }
  }

  /** The next submit goes to the account whose turn it is, is refused only if every account is at
      the cap, and keeps the deal going. */
  lemma NextSubmit(accounts: seq<Address>, counts: seq<nat>, base: nat, n: nat, cap: int) returns (k: nat)
    requires |accounts| == |counts| && Dealt(counts, base, n)
    ensures k == n % |counts| && k == FirstLeast(accounts, counts)
    ensures Healthy(StatesOf(accounts, counts)) == StatesOf(accounts, counts)
    ensures Pick(Choice(StatesOf(accounts, counts))) == Ok(accounts[k])
    ensures counts[k] >= cap ==> forall i | 0 <= i < |counts| :: counts[i] >= cap
    ensures counts[k] < cap ==> Dealt(SubmitOne(cap, counts, k, true), base, n + 1)
  {
    var states := StatesOf(accounts, counts);
    AllHealthy(states);
    k := PicksFirstLeast(states);
    assert states[k].inflightCount == counts[k];
    var turn := n % |counts|;
    assert forall i | 0 <= i < |counts| :: states[i].inflightCount == counts[i];
    assert IsFirstLeast(states, turn);
    FirstLeastIsUnique(states, k, turn);
    FirstLeastIsUnique(states, k, FirstLeast(accounts, counts));
    NextDeal(|counts|, n);
  }

  lemma {:induction false} AllHealthy(states: seq<WalletState>)
    requires forall i | 0 <= i < |states| :: states[i].healthy
    ensures Healthy(states) == states
  {
    if states != [] {
      AllHealthy(states[1..]);
      assert states == [states[0]] + states[1..];
    }
  }

  /** The counts after a run of unordered submits, each sent where the selector says; outcomes says of
      each whether nothing but the cap can refuse it. */
  ghost function AfterSubmits(accounts: seq<Address>, counts: seq<nat>, cap: int, outcomes: seq<bool>): seq<nat>
    requires |accounts| == |counts| > 0
    ensures |AfterSubmits(accounts, counts, cap, outcomes)| == |counts|
  {
    if outcomes == [] then counts
    else
      var before := AfterSubmits(accounts, counts, cap, outcomes[..|outcomes| - 1]);
      SubmitOne(cap, before, FirstLeast(accounts, before), outcomes[|outcomes| - 1])
  }

  /** Where the selector sends a submit. */
  ghost function FirstLeast(accounts: seq<Address>, counts: seq<nat>): (k: nat)
    requires |accounts| == |counts| > 0
    ensures k < |counts| && IsFirstLeast(StatesOf(accounts, counts), k)
  {
    FirstLeastExists(accounts, counts);
    var k: nat :| k < |counts| && IsFirstLeast(StatesOf(accounts, counts), k);
    k
  }

  lemma FirstLeastExists(accounts: seq<Address>, counts: seq<nat>)
    requires |accounts| == |counts| > 0
    ensures exists k: nat :: k < |counts| && IsFirstLeast(StatesOf(accounts, counts), k)
  {
    var k := PicksFirstLeast(StatesOf(accounts, counts));
  }

  function Equal(m: nat, base: nat): seq<nat> {
    seq(m, i => base)
  }

  /** How many submits each account can still take. */
  function Room(base: nat, cap: int): nat {
    if base < cap then cap - base else 0
  }

  function GoodOnes(outcomes: seq<bool>): nat {
    if outcomes == [] then 0
    else GoodOnes(outcomes[..|outcomes| - 1]) + (if outcomes[|outcomes| - 1] then 1 else 0)
  }

  /** Good submits are taken until every account is at the cap. */
  function Taken(m: nat, base: nat, cap: int, good: nat): nat {
    if good <= Room(base, cap) * m then good else Room(base, cap) * m
  }

  lemma HasRoom(counts: seq<nat>, base: nat, n: nat, cap: int)
    requires Dealt(counts, base, n) && n < Room(base, cap) * |counts|
    ensures counts[n % |counts|] < cap
  {
    var m := |counts|;
    QuotientBelow(m, n / m, n % m, Room(base, cap));
  }

  lemma QuotientBelow(m: nat, q: nat, r: nat, room: nat)
    requires m * q + r < room * m
    ensures q < room
  {
  }

  lemma NoRoom(counts: seq<nat>, base: nat, cap: int)
    requires Dealt(counts, base, Room(base, cap) * |counts|)
    ensures forall i | 0 <= i < |counts| :: counts[i] >= cap
  {
    WholeRounds(|counts|, Room(base, cap));
    var n := Room(base, cap) * |counts|;
    assert n / |counts| == Room(base, cap) && n % |counts| == 0;
  }

  lemma WholeRounds(m: nat, q: nat)
    requires m > 0
    ensures (q * m) / m == q && (q * m) % m == 0
  {
    DivModUnique(m, q, 0);
    assert q * m == m * q + 0;
  }

  lemma {:induction false} DealtAfter(accounts: seq<Address>, base: nat, cap: int, outcomes: seq<bool>)
    requires |accounts| > 0
    ensures Dealt(AfterSubmits(accounts, Equal(|accounts|, base), cap, outcomes), base,
                  Taken(|accounts|, base, cap, GoodOnes(outcomes)))
    decreases |outcomes|
  {
    var m, start := |accounts|, Equal(|accounts|, base);
    if outcomes == [] {
      DivModUnique(m, 0, 0);
      NothingTaken(m, base, cap);
      assert AfterSubmits(accounts, start, cap, []) == start;
    } else {
      var n := |outcomes| - 1;
      DealtAfter(accounts, base, cap, outcomes[..n]);
      DealtNext(accounts, AfterSubmits(accounts, start, cap, outcomes[..n]), base, cap, GoodOnes(outcomes[..n]), outcomes[n]);
    }
  }

  lemma NothingTaken(m: nat, base: nat, cap: int)
    ensures Taken(m, base, cap, 0) == 0
  {
  }

  lemma DealtNext(accounts: seq<Address>, counts: seq<nat>, base: nat, cap: int, good: nat, next: bool)
    requires |accounts| == |counts| > 0 && Dealt(counts, base, Taken(|counts|, base, cap, good))
    ensures Dealt(SubmitOne(cap, counts, FirstLeast(accounts, counts), next), base,
                  Taken(|counts|, base, cap, good + if next then 1 else 0))
  {
    hide Dealt, Choice, Healthy, Pick, IsFirstLeast, FirstLeast, Room;
    var n := Taken(|counts|, base, cap, good);
    var k := NextSubmit(accounts, counts, base, n, cap);
    if good < Room(base, cap) * |counts| {
      HasRoom(counts, base, n, cap);
    } else {
      NoRoom(counts, base, cap);
    }
  }

  /** From equal counts, any run of unordered submits without a settlement is dealt round robin until
      all accounts are at the cap, whatever else refuses some of them: the in-flight counts never
      differ by more than one, and the cap refuses no submit while an account has room. */
  lemma SpreadIsFair(accounts: seq<Address>, base: nat, cap: int, outcomes: seq<bool>, i: nat, j: nat)
    requires |accounts| > 0 && i < |accounts| && j < |accounts|
    ensures var counts := AfterSubmits(accounts, Equal(|accounts|, base), cap, outcomes);
            && counts[i] <= counts[j] + 1
            && (counts[FirstLeast(accounts, counts)] >= cap ==> counts[i] >= cap)
            && (counts[FirstLeast(accounts, counts)] < cap <==> GoodOnes(outcomes) < Room(base, cap) * |accounts|)
  {
    hide Choice, Healthy, Pick, IsFirstLeast, FirstLeast, AfterSubmits, Room;
    DealtAfter(accounts, base, cap, outcomes);
    var m, n := |accounts|, Taken(|accounts|, base, cap, GoodOnes(outcomes));
    var counts := AfterSubmits(accounts, Equal(m, base), cap, outcomes);
    var k := NextSubmit(accounts, counts, base, n, cap);
    if GoodOnes(outcomes) < Room(base, cap) * m {
      HasRoom(counts, base, n, cap);
    } else {
      NoRoom(counts, base, cap);
    }
  }
}
