/** The in-process cache: a nonce lane and an in-flight set for each account, account gauges and the
    sticky bindings (src/cache/in-memory.cache.ts). */
module Cache {
  import opened Records
  import opened Cursors
  import opened Lanes
  import opened MemoryStore
  import opened AccountProtocol
  import PoolProtocol

  type Binding = PoolProtocol.Binding

  datatype LaneState = LaneState(cursor: Option<nat>, busy: bool)

  datatype OtherAccounts = OtherAccounts(txs: map<Address, map<nat, TxRecord>>, lanes: map<Address, LaneState>)

  /** The smallest of some nonces. */
  lemma Smallest(s: set<nat>) returns (least: nat)
    requires s != {}
    ensures least in s && forall m | m in s :: least <= m
  {
    least :| least in s;
    if m :| m in s && m < least {
      var rest := s - {least};
      assert m in rest;
      var other := Smallest(rest);
      assert forall k | k in s :: k == least || k in rest;
      least := other;
    }
  }

  lemma EmptyListing()
    ensures IsListing([], map[])
  {
  }

  lemma ListingGrows(list: seq<TxRecord>, done: map<nat, TxRecord>, r: TxRecord)
    requires IsListing(list, done) && forall i | 0 <= i < |list| :: list[i].nonce < r.nonce
    ensures IsListing(list + [r], done[r.nonce := r])
  {
    var more := list + [r];
    var next := done[r.nonce := r];
    forall n | n in next ensures exists i | 0 <= i < |more| :: more[i].nonce == n {
      if n == r.nonce {
        assert more[|list|].nonce == n;
      } else {
        var i :| 0 <= i < |list| && list[i].nonce == n;
        assert more[i].nonce == n;
      }
    }
  }

  class InMemoryCache {
    var lanes: map<Address, Lane>
    var txs: map<Address, map<nat, TxRecord>>
    var accounts: map<AccountId, AccountRecord>
    var ordering: map<OrderingKey, Binding>

    /** Every account has a lane of its own, and a record is filed under its account and nonce. */
    ghost predicate Valid()
      reads this
    {
      && (forall a, b | a in lanes && b in lanes && a != b :: lanes[a] != lanes[b])
      && (forall a, n | a in txs && n in txs[a] :: txs[a][n].nonce == n && txs[a][n].account == a)
    }

    ghost function Cursor(a: Address): Option<nat>
      reads this, lanes.Values
    {
      if a in lanes then lanes[a].cursor else None
    }

    ghost predicate Busy(a: Address)
      reads this, lanes.Values
    {
      a in lanes && lanes[a].busy
    }

    function Tracked(a: Address): map<nat, TxRecord>
      reads this
    {
      if a in txs then txs[a] else map[]
    }

    /** What the cache holds for all other accounts. */
    ghost function Elsewhere(a: Address): OtherAccounts
      reads this, lanes.Values
    {
      OtherAccounts(txs - {a}, map b | b in lanes && b != a :: LaneState(lanes[b].cursor, lanes[b].busy))
    }

    constructor ()
      ensures Valid() && lanes == map[] && txs == map[] && accounts == map[] && ordering == map[]
    {
      lanes, txs, accounts, ordering := map[], map[], map[], map[];
    }

    // ----- nonce lane -----

    method LaneOf(a: Address) returns (lane: Lane)
      requires Valid()
      modifies this`lanes
      ensures Valid() && a in lanes && lane == lanes[a]
      ensures Cursor(a) == old(Cursor(a)) && (Busy(a) <==> old(Busy(a))) && Elsewhere(a) == old(Elsewhere(a))
      ensures fresh(lanes.Values - old(lanes.Values))
      ensures forall b | b in old(lanes) :: b in lanes && lanes[b] == old(lanes)[b]
    {
      if a in lanes {
        lane := lanes[a];
      } else {
        lane := new Lane();
        lanes := lanes[a := lane];
      }
    }

    /** withNonce as a whole, when nothing else happens to the account but the given seeds. */
    method WithNonce(a: Address, during: seq<nat>, outcome: Outcome) returns (nonce: nat)
      requires Valid() && !Busy(a)
      modifies this`lanes, lanes.Values
      ensures Valid() && fresh(lanes.Values - old(lanes.Values))
      ensures Some(nonce) == LaneGrants(old(Cursor(a)), Turn(None, during, outcome))
      ensures Cursor(a) == LaneMoves(old(Cursor(a)), Turn(None, during, outcome))
      ensures !Busy(a) && Elsewhere(a) == old(Elsewhere(a))
    {
      var lane := LaneOf(a);
      nonce := lane.Run(during, outcome);
    }

    /** withNonce, up to the point where its function gets the nonce. */
    method OpenTurn(a: Address) returns (nonce: nat)
      requires Valid() && !Busy(a)
      modifies this`lanes, lanes.Values
      ensures Valid() && fresh(lanes.Values - old(lanes.Values))
      ensures nonce == NextNonce(old(Cursor(a)))
      ensures Cursor(a) == old(Cursor(a)) && Busy(a) && Elsewhere(a) == old(Elsewhere(a))
    {
      var lane := LaneOf(a);
      nonce := lane.Open(0);
    }

    /** withNonce, after its function returned. */
    method CloseTurn(a: Address, nonce: nat)
      requires Valid() && Busy(a)
      modifies lanes.Values
      ensures Valid() && Cursor(a) == Some(nonce + 1) && !Busy(a) && Elsewhere(a) == old(Elsewhere(a))
    {
      lanes[a].Close(nonce);
    }

    /** withNonce, after its function threw. */
    method FailTurn(a: Address)
      requires Valid() && Busy(a)
      modifies lanes.Values
      ensures Valid() && Cursor(a) == old(Cursor(a)) && !Busy(a) && Elsewhere(a) == old(Elsewhere(a))
    {
      lanes[a].Fail();
    }

    method SeedNonce(a: Address, atLeast: nat)
      requires Valid()
      modifies this`lanes, lanes.Values
      ensures Valid() && fresh(lanes.Values - old(lanes.Values))
      ensures Cursor(a) == SeedCursor(old(Cursor(a)), atLeast) && (Busy(a) <==> old(Busy(a)))
      ensures Elsewhere(a) == old(Elsewhere(a))
    {
      var lane := LaneOf(a);
      lane.Seed(atLeast);
    }

    method PeekNonce(a: Address) returns (cursor: Option<nat>)
      ensures cursor == Cursor(a)
    {
      cursor := if a in lanes then lanes[a].cursor else None;
    }

    // ----- in-flight set -----

    method PutTx(rec: TxRecord)
      requires Valid()
      modifies this`txs
      ensures Valid() && Tracked(rec.account) == old(Tracked(rec.account))[rec.nonce := rec]
      ensures txs - {rec.account} == old(txs) - {rec.account}
    {
      txs := txs[rec.account := Tracked(rec.account)[rec.nonce := rec]];
    }

    method DropTx(a: Address, nonce: nat)
      requires Valid()
      modifies this`txs
      ensures Valid() && Tracked(a) == old(Tracked(a)) - {nonce}
      ensures txs - {a} == old(txs) - {a}
    {
      if a in txs {
        txs := txs[a := txs[a] - {nonce}];
      }
    }

    /** The in-flight set by ascending nonce. */
    method ListTxs(a: Address) returns (list: seq<TxRecord>)
      requires Valid()
      ensures IsListing(list, Tracked(a)) && |list| == |Tracked(a)|
    {
      hide IsListing;
      var tracked := Tracked(a);
      var rest := tracked.Keys;
      list := [];
      EmptyListing();
      ghost var done: map<nat, TxRecord> := map[];
      while rest != {}
        invariant rest <= tracked.Keys && done == tracked - rest
        invariant |list| + |rest| == |tracked|
        invariant IsListing(list, done)
        invariant forall i, n | 0 <= i < |list| && n in rest :: list[i].nonce < n
        decreases |rest|
      {
        ghost var least := Smallest(rest);
        var n: nat :| n in rest && forall m | m in rest :: n <= m;
        ListingGrows(list, done, tracked[n]);
        rest, list, done := rest - {n}, list + [tracked[n]], done[n := tracked[n]];
      }
      assert done == tracked;
    }

    method CountTxs(a: Address) returns (count: nat)
      ensures count == |Tracked(a)|
    {
      count := if a in txs then |txs[a]| else 0;
    }

    // ----- account gauges -----

    method PutAccount(rec: AccountRecord)
      modifies this`accounts
      ensures accounts == old(accounts)[AccountId(rec.chainId, rec.address) := rec]
    {
      accounts := accounts[AccountId(rec.chainId, rec.address) := rec];
    }

    // ----- sticky bindings -----

    method BindOrdering(o: OrderingKey, prefer: Address) returns (account: Address)
      modifies this`ordering
      ensures ordering == PoolProtocol.Bind(old(ordering), o, prefer)
      ensures account == ordering[o].account == PoolProtocol.Target(old(ordering), Some(o), prefer)
    {
      if o in ordering {
        ordering := ordering[o := ordering[o].(refs := ordering[o].refs + 1)];
        account := ordering[o].account;
      } else {
        ordering := ordering[o := PoolProtocol.Binding(prefer, 1)];
        account := prefer;
      }
    }

    method ReleaseOrdering(o: OrderingKey)
      modifies this`ordering
      ensures ordering == PoolProtocol.Release(old(ordering), o)
    {
      if o !in ordering {
        return;
      }
      var left := ordering[o].refs - 1;
      if left <= 0 {
        ordering := ordering - {o};
      } else {
        ordering := ordering[o := ordering[o].(refs := left)];
      }
    }

    method OrderingCount() returns (count: nat)
      ensures count == |ordering|
    {
      count := |ordering|;
    }
  }

  /** What the cache holds for an account, read off what it holds elsewhere. */
  lemma ElsewhereShows(c: InMemoryCache, a: Address, b: Address)
    requires a != b
    ensures c.Tracked(b) == (if b in c.Elsewhere(a).txs then c.Elsewhere(a).txs[b] else map[])
    ensures b in c.lanes <==> b in c.Elsewhere(a).lanes
    ensures b in c.lanes ==> c.Elsewhere(a).lanes[b] == LaneState(c.lanes[b].cursor, c.lanes[b].busy)
  {
  }
}
