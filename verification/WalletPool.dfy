/** The facade as an object over its accounts (src/pool.ts): submit with its sticky ref, and the
    restore loop. */
module WalletPools {
  import opened Records
  import opened Cursors
  import opened AccountProtocol
  import opened AccountInvariant
  import opened AccountWrites
  import opened AccountSteps
  import opened AccountTheorems
  import opened AccountScripts
  import opened MemoryStore
  import opened Cache
  import opened Routing
  import opened ManagedAccounts
  import opened Outcomes
  import PoolProtocol
  import PoolTheorems
  import PoolSubmits

  predicate AllHeld(binds: map<OrderingKey, Binding>) {
    forall o | o in binds :: binds[o].refs >= 1
  }

  /** A release takes back a bind. */
  lemma ReleaseUndoesBind(binds: map<OrderingKey, Binding>, o: Option<OrderingKey>, prefer: Address)
    requires AllHeld(binds)
    ensures PoolProtocol.ReleaseSome(PoolProtocol.BindSome(binds, o, prefer), o) == binds
    ensures AllHeld(PoolProtocol.BindSome(binds, o, prefer))
  {
  }

  class WalletForcePool {
    const cfg: Config
    /** The owned accounts, in a fixed order. */
    const order: seq<Address>
    const accounts: map<Address, ManagedAccount>
    const cache: InMemoryCache
    const store: InMemoryStore
    const router: DefaultRouter

    ghost predicate Wired() {
      && (forall a | a in order :: a in accounts) && (forall a | a in accounts :: a in order)
      && (forall i, j | 0 <= i < j < |order| :: order[i] != order[j])
      && router.cache == cache
      && forall a | a in accounts ::
           accounts[a].address == a && accounts[a].cfg == cfg && accounts[a].cache == cache && accounts[a].store == store
    }

    ghost predicate Valid()
      reads accounts.Values, cache, cache.lanes.Values, store
    {
      && Wired() && cache.Valid() && AllHeld(cache.ordering)
      && forall a | a in accounts :: accounts[a].Valid() && !cache.Busy(a)
    }

    /** The accounts are listed once each and share the pool's cache and store, and nothing is on its way. */
    constructor (cfg: Config, order: seq<Address>, accounts: map<Address, ManagedAccount>, cache: InMemoryCache, store: InMemoryStore)
      requires (forall a | a in order :: a in accounts) && (forall a | a in accounts :: a in order)
      requires forall i, j | 0 <= i < j < |order| :: order[i] != order[j]
      requires forall a | a in accounts ::
        accounts[a].address == a && accounts[a].cfg == cfg && accounts[a].cache == cache && accounts[a].store == store
      requires cache.Valid() && AllHeld(cache.ordering)
      requires forall a | a in accounts :: accounts[a].Valid() && !cache.Busy(a)
      ensures Valid()
      ensures this.cfg == cfg && this.order == order && this.accounts == accounts && this.cache == cache
      ensures this.store == store
      ensures router.cache == cache && fresh(router)
    {
      this.cfg, this.order, this.accounts, this.cache, this.store := cfg, order, accounts, cache, store;
      router := new DefaultRouter(cache);
    }

    // ----- submit -----

    /** An account as a candidate: the lane's cursor rather than the gauge's, healthy until gauged. */
    function StateOf(a: Address): WalletState
      requires Wired() && a in accounts
      reads cache, cache.lanes.Values
    {
      var id := AccountId(cfg.chainId, a);
      var gauge := if id in cache.accounts && cache.accounts[id].ownerId == cfg.ownerId then Some(cache.accounts[id]) else None;
      var cursor := if a in cache.lanes then cache.lanes[a].cursor else None;
      WalletState(
        a, |cache.Tracked(a)|,
        if cursor.Some? then cursor.value else if gauge.Some? then gauge.value.nonceCursor else 0,
        if gauge.Some? then gauge.value.balanceWei else 0,
        gauge.None? || gauge.value.healthy)
    }

    function States(): seq<WalletState>
      requires Wired()
      reads cache, cache.lanes.Values
    {
      seq(|order|, i requires 0 <= i < |order| && Wired() reads cache, cache.lanes.Values => StateOf(order[i]))
    }

    method WalletStates() returns (states: seq<WalletState>)
      requires Wired()
      ensures states == States()
    {
      states := [];
      for i := 0 to |order|
        invariant states == States()[..i]
      {
        states := states + [StateOf(order[i])];
      }
    }

    /** The account a submit is meant for: the pinned one, else the router's preferred one. */
    function Destination(req: Request): Option<Address>
      requires Wired()
      reads cache, cache.lanes.Values
    {
      match Pick(Choice(States()))
      case Err => None
      case Ok(prefer) => Some(PoolProtocol.Target(cache.ordering, req.sub.orderingKey, prefer))
    }

    /** All other accounts are as they were. */
    twostate predicate OthersKept(a: Address)
      reads accounts.Values
    {
      forall b | b in accounts && b != a :: accounts[b].model == old(accounts[b].model) && accounts[b].trace == old(accounts[b].trace)
    }

    /** Route, acquire a ref for an ordering key, submit on the account; a submit that throws gives the
        ref back. */
    method Submit(req: Request, ans: SubmitAnswers) returns (r: Result<Submitted>)
      requires Valid() && req.sub.key !in store.transactions
      requires forall a | a in accounts :: CanOpenTurn(accounts[a].model, req.sub)
      modifies accounts.Values, cache, cache.lanes.Values, store
      ensures Valid()
      ensures r.Err? ==> cache.ordering == old(cache.ordering)
      ensures r.Ok? ==> Some(r.value.account) == old(Destination(req)) && r.value.account in accounts
      ensures r.Ok? ==> cache.ordering == PoolProtocol.BindSome(old(cache.ordering), req.sub.orderingKey, r.value.account)
      ensures old(Destination(req)).Some? ==>
                var a := old(Destination(req)).value;
                && OthersKept(a)
                && (a in accounts ==>
                      && accounts[a].trace == old(accounts[a].trace) + SubmitScript(cfg, old(accounts[a].model), req, ans)
                      && (r.Ok? <==> Admits(cfg, old(accounts[a].model), req, ans) && ans.send.Sent?))
    {
      hide ManagedAccount.Valid, Choice, Pick, CanOpenTurn, SubmitScript, States, StateOf, Admits;
      var states := WalletStates();
      var o := req.sub.orderingKey;
      var routed := router.Route(states, o);
      if routed.Err? {
        return Err;
      }
      var a := routed.value;
      ReleaseUndoesBind(old(cache.ordering), o, Pick(Choice(states)).value);
      Rebound();
      if a !in accounts {
        ReleaseRef(o);
        return Err;
      }
      r := SubmitOn(a, req, ans);
      if r.Err? {
        ReleaseRef(o);
      }
    }

    // ----- submit as a run of the pool -----

    /** The pool of the protocol that these objects are, between two submits. */
    ghost predicate Shows(p: PoolProtocol.Pool)
      reads accounts.Values, cache
    {
      p.accts == Models() && p.binds == cache.ordering && PoolSubmits.Quiescent(p)
    }

    /** What Submit leaves is the pool after the protocol's steps of that submit. */
    twostate lemma SubmitFollowsPool(foreign: map<Key, TxRecord>, steps: seq<PoolProtocol.PoolStep>, p: PoolProtocol.Pool,
                                     req: Request, ans: SubmitAnswers, accepted: bool, a: Address)
        returns (more: seq<PoolProtocol.PoolStep>, q: PoolProtocol.Pool)
      requires old(Valid()) && Valid() && old(Shows(p)) && req.sub.key !in p.store
      requires PoolTheorems.AllForeign(cfg, accounts.Keys, foreign) && PoolProtocol.PoolRun(cfg, accounts.Keys, foreign, steps) == Ok(p)
      requires forall b | b in accounts :: CanOpenTurn(old(accounts[b].model), req.sub)
      requires old(Destination(req)) == Some(a) && a in accounts && OthersKept(a)
      requires accounts[a].trace == old(accounts[a].trace) + SubmitScript(cfg, old(accounts[a].model), req, ans)
      requires accepted <==> Admits(cfg, old(accounts[a].model), req, ans) && ans.send.Sent?
      requires cache.ordering == if accepted then PoolProtocol.BindSome(old(cache.ordering), req.sub.orderingKey, a) else old(cache.ordering)
      ensures PoolProtocol.PoolRun(cfg, accounts.Keys, foreign, steps + more) == Ok(q) && Shows(q)
    {
      hide ManagedAccount.Mirrors, Run, SubmitScript, Admits, PoolProtocol.PoolRun, Choice, Pick, KeyFree, Healthy, AllHeld,
           PoolSubmits.SubmitSteps, PoolTheorems.AllForeign, PoolProtocol.BindSome, Perform, CanOpenTurn, PoolProtocol.Target;
      ghost var prefer := old(Pick(Choice(States()))).value;
      PreferredIsOwned(old(States()));
      more := PoolSubmits.SubmitSteps(cfg, p, a, req, ans, prefer);
      q := PoolSubmits.SubmitBetween(cfg, accounts.Keys, foreign, steps, p, a, req, ans, prefer, old(accounts[a].trace), accounts[a].model);
      assert q.accts == Models();
    }

    lemma PreferredIsOwned(states: seq<WalletState>)
      requires Wired() && |states| == |order| && forall i | 0 <= i < |order| :: states[i].address == order[i]
      ensures Pick(Choice(states)).Ok? ==> Pick(Choice(states)).value in accounts
    {
      hide Choice, Pick;
      if states != [] {
        var c := PickIsCandidate(states);
      } else {
        NoneToPick();
      }
    }

    static lemma NoneToPick()
      ensures Pick(Choice([])).Err?
    {
    }

    /** Only the bindings moved. */
    twostate lemma Rebound()
      requires old(Valid()) && AllHeld(cache.ordering)
      requires cache.lanes == old(cache.lanes) && cache.txs == old(cache.txs)
      requires store.transactions == old(store.transactions)
      requires forall l | l in cache.lanes.Values :: l.cursor == old(l.cursor) && l.busy == old(l.busy)
      requires forall a | a in accounts :: accounts[a].model == old(accounts[a].model) && accounts[a].trace == old(accounts[a].trace)
      ensures Valid()
    {
      hide Run, Share, Others;
      forall a | a in accounts ensures accounts[a].Valid() && !cache.Busy(a) {
        assert old(accounts[a].Valid());
      }
    }

    method ReleaseRef(o: Option<OrderingKey>)
      requires Valid() && AllHeld(PoolProtocol.ReleaseSome(cache.ordering, o))
      modifies cache`ordering
      ensures Valid() && cache.ordering == PoolProtocol.ReleaseSome(old(cache.ordering), o)
    {
      hide ManagedAccount.Valid;
      if o.Some? {
        router.Release(o.value);
      }
      Rebound();
    }

    /** One account submits; nothing of the others changes. */
    method SubmitOn(a: Address, req: Request, ans: SubmitAnswers) returns (r: Result<Submitted>)
      requires Valid() && a in accounts && CanOpenTurn(accounts[a].model, req.sub) && req.sub.key !in store.transactions
      modifies accounts[a], cache`lanes, cache`txs, cache.lanes.Values, store
      ensures Valid() && OthersKept(a)
      ensures accounts[a].trace == old(accounts[a].trace) + SubmitScript(cfg, old(accounts[a].model), req, ans)
      ensures r.Ok? <==> Admits(cfg, old(accounts[a].model), req, ans) && ans.send.Sent?
      ensures r.Ok? ==> r.value.account == a
    {
      hide ManagedAccount.Valid, CanOpenTurn, SubmitScript, Share, Others, Admits;
      r := accounts[a].Submit(req, ans);
      Untouched(a);
    }

    /** What one account does keeps the pool valid. */
    twostate lemma Untouched(a: Address)
      requires old(Valid()) && a in accounts && accounts[a].Valid() && !cache.Busy(a)
      requires OthersKept(a) && cache.ordering == old(cache.ordering)
      requires cache.Elsewhere(a) == old(cache.Elsewhere(a))
      requires Others(cfg, a, store.transactions) == old(Others(cfg, a, store.transactions))
      ensures Valid()
    {
      hide Run, Share, Others;
      forall b | b in accounts && b != a ensures accounts[b].Valid() && !cache.Busy(b) {
        assert old(accounts[b].Valid());
        ElsewhereShows(cache, a, b);
        assert b in old(cache.Elsewhere(a)).txs <==> b in old(cache.txs);
        assert b in old(cache.Elsewhere(a)).lanes <==> b in old(cache.lanes);
        SameShare(cfg, a, b, old(store.transactions), store.transactions);
      }
    }

    /** Track a transaction that was sent elsewhere, and acquire a ref for its ordering key. */
    method Reattach(a: Address, f: Foundling, zero: Address, now: int) returns (known: bool)
      requires Valid() && f.key !in store.transactions
      requires a in accounts ==> CanReattach(cfg, a, accounts[a].model, Placeholder(cfg, a, zero, f, now))
      modifies accounts.Values, cache, cache.lanes.Values, store
      ensures Valid() && known == (a in accounts) && OthersKept(a)
      ensures known ==> accounts[a].trace == old(accounts[a].trace) + [Recovering(Reattached(Placeholder(cfg, a, zero, f, now)))]
      ensures cache.ordering == if known then PoolProtocol.BindSome(old(cache.ordering), f.orderingKey, a) else old(cache.ordering)
    {
      hide ManagedAccount.Valid, CanReattach, Share, Others;
      known := a in accounts;
      if known {
        accounts[a].Reattach(f, zero, now);
        Untouched(a);
        BindRef(f.orderingKey, a);
      }
    }

    // ----- restore -----

    ghost function Models(): map<Address, Account>
      reads accounts.Values
    {
      map a | a in accounts :: accounts[a].model
    }

    method BindRef(o: Option<OrderingKey>, a: Address)
      requires Valid()
      modifies cache`ordering
      ensures Valid() && cache.ordering == PoolProtocol.BindSome(old(cache.ordering), o, a)
    {
      hide ManagedAccount.Valid;
      if o.Some? {
        var account := cache.BindOrdering(o.value, a);
      }
      Rebound();
    }

    ghost method Pass(a: Address, s: BootStep)
      requires Valid() && a in accounts && BootEnabled(cfg, a, accounts[a].model, s)
      requires (s.RestoredBinding? || s.FinishedBoot?)
      modifies accounts[a]
      ensures Valid() && OthersKept(a) && accounts[a].model == BootNext(cfg, a, old(accounts[a].model), s)
    {
      hide ManagedAccount.Valid, BootEnabled, BootNext, Share, Others;
      accounts[a].PassBoot(s);
      Untouched(a);
    }

    method TrackRow(rec: TxRecord)
      requires Valid() && rec.account in accounts
      requires CanRestoreTrack(accounts[rec.account].model, rec.key)
      requires accounts[rec.account].model.mode.todo[rec.key] == rec
      modifies accounts[rec.account], cache`lanes, cache`txs, cache.lanes.Values
      ensures Valid() && OthersKept(rec.account) && fresh(cache.lanes.Values - old(cache.lanes.Values))
      ensures accounts[rec.account].model == RestoreSeed(RestoreTrack(old(accounts[rec.account].model), rec.key))
    {
      hide ManagedAccount.Valid, Share, Others;
      accounts[rec.account].RestoreTransaction(rec);
      Untouched(rec.account);
    }

    /** One row: into the cache, the lane past it, its ordering key bound. */
    method RestoreRow(rec: TxRecord)
      requires Valid() && rec.account in accounts
      requires CanRestoreTrack(accounts[rec.account].model, rec.key)
      requires accounts[rec.account].model.mode.todo[rec.key] == rec
      modifies accounts[rec.account], cache`lanes, cache`txs, cache`ordering, cache.lanes.Values
      ensures Valid() && OthersKept(rec.account) && fresh(cache.lanes.Values - old(cache.lanes.Values))
      ensures accounts[rec.account].model == RowDone(old(accounts[rec.account].model), rec.key)
      ensures cache.ordering == PoolProtocol.BindSome(old(cache.ordering), rec.orderingKey, rec.account)
    {
      hide Valid, ManagedAccount.Valid;
      TrackRow(rec);
      BindRef(rec.orderingKey, rec.account);
      Pass(rec.account, RestoredBinding);
    }

    lemma FreshNonce(rec: TxRecord)
      requires Valid() && rec.account in accounts
      requires CanRestoreTrack(accounts[rec.account].model, rec.key)
      requires accounts[rec.account].model.mode.todo[rec.key] == rec
      ensures rec.nonce !in accounts[rec.account].model.resends
    {
      NotQueuedYet(cfg, rec.account, accounts[rec.account].trace, accounts[rec.account].model, rec.key);
    }

    /** Every row of an owned account, in some order; pending ones are noted for a rebroadcast. */
    method RestoreRows(txs: seq<TxRecord>) returns (pending: seq<Place>)
      requires Valid() && Remaining(Models(), txs, 0) && Queued(Models(), []) && OneKeyEach(txs, accounts.Keys)
      modifies accounts.Values, cache`lanes, cache`txs, cache`ordering, cache.lanes.Values
      ensures Valid() && Remaining(Models(), txs, |txs|) && Queued(Models(), pending)
      ensures cache.ordering == BoundBy(old(cache.ordering), txs, accounts.Keys)
      ensures fresh(cache.lanes.Values - old(cache.lanes.Values))
    {
      hide Valid, ManagedAccount.Valid, Remaining, Queued;
      pending := [];
      for i := 0 to |txs|
        invariant Valid() && Remaining(Models(), txs, i) && Queued(Models(), pending)
        invariant cache.ordering == BoundBy(old(cache.ordering), txs[..i], accounts.Keys)
        invariant fresh(cache.lanes.Values - old(cache.lanes.Values))
      {
        assert txs[..i + 1][..i] == txs[..i];
        var rec := txs[i];
        if rec.account in accounts {
          RowCanRestore(Models(), txs, i);
          ghost var before := Models();
          FreshNonce(rec);
          RestoreRow(rec);
          assert Models() == before[rec.account := RowDone(before[rec.account], rec.key)];
          RowRemaining(before, txs, i);
          RowQueued(before, rec, pending);
          if rec.status.Pending? {
            pending := pending + [Place(rec.account, rec.nonce)];
          }
        } else {
          NotOwned(Models(), txs, i);
        }
      }
      assert txs[..|txs|] == txs;
    }

    method ResendOne(p: Place, ans: ResendAnswers)
      requires Valid() && p.account in accounts && p.nonce in accounts[p.account].model.resends
      requires accounts[p.account].model.resends[p.nonce].Sending?
      modifies accounts[p.account], cache`txs, store
      ensures Valid() && OthersKept(p.account)
      ensures accounts[p.account].model.mode == old(accounts[p.account].model.mode)
      ensures accounts[p.account].model.resends == old(accounts[p.account].model.resends) - {p.nonce}
    {
      ResendIsTracked(cfg, p.account, accounts[p.account].trace, accounts[p.account].model, p.nonce);
      hide ManagedAccount.Valid, Share, Others, RebroadcastScript;
      accounts[p.account].Rebroadcast(p.nonce, ans);
      Untouched(p.account);
    }

    /** All noted rebroadcasts, each ending somehow. */
    method Rebroadcasts(pending: seq<Place>, answers: Place -> ResendAnswers)
      requires Valid() && Queued(Models(), pending) && AllRestored(Models())
      modifies accounts.Values, cache`txs, store
      ensures Valid() && Queued(Models(), []) && AllRestored(Models())
    {
      hide Valid, ManagedAccount.Valid, Queued;
      for i := 0 to |pending|
        invariant Valid() && Queued(Models(), pending[i..]) && AllRestored(Models())
      {
        var p := pending[i];
        assert pending[i..][0] == p && pending[i..][1..] == pending[i + 1..];
        HeadIsQueued(Models(), pending[i..]);
        ghost var before := Models();
        ResendOne(p, answers(p));
        assert Models() == before[p.account := accounts[p.account].model];
        QueuedShrinks(before, pending[i..], accounts[p.account].model);
      }
      assert pending[|pending|..] == [];
    }

    /** Every account goes up. */
    ghost method Finish()
      requires Valid() && Queued(Models(), []) && AllRestored(Models())
      modifies accounts.Values
      ensures Valid() && forall a | a in accounts :: accounts[a].model.mode.Up?
    {
      hide ManagedAccount.Valid, Queued, BootEnabled, BootNext, FinishBoot;
      NothingQueued(Models());
      for i := 0 to |order|
        invariant Valid()
        invariant forall j | 0 <= j < i :: accounts[order[j]].model.mode.Up?
        invariant forall j | i <= j < |order| :: accounts[order[j]].model == old(accounts[order[j]].model)
      {
        assert CanFinishBoot(old(accounts[order[i]].model)) by {
          assert old(Models())[order[i]] == old(accounts[order[i]].model);
        }
        FinishIs(cfg, order[i], accounts[order[i]].model);
        Pass(order[i], FinishedBoot);
      }
    }

    /** The lane and the gauge of an account from its row. */
    method HydrateGauge(a: Address, rec: AccountRecord)
      requires Valid() && a in accounts && accounts[a].model.mode.Booting?
      modifies accounts[a], cache`lanes, cache`accounts, cache.lanes.Values
      ensures Valid() && OthersKept(a) && fresh(cache.lanes.Values - old(cache.lanes.Values))
      ensures accounts[a].model == Seed(old(accounts[a].model), rec.nonceCursor)
    {
      hide ManagedAccount.Valid, Share, Others;
      accounts[a].RestoreAccountState(rec);
      Untouched(a);
    }

    /** A fresh row and gauge. */
    method FreshGauge(a: Address, now: int)
      requires Valid() && a in accounts
      modifies cache`accounts, store
      ensures Valid() && store.transactions == old(store.transactions)
    {
      hide ManagedAccount.Valid, Share, Others;
      accounts[a].RefreshState(0, true, now);
      Untouched(a);
    }

    /** Hydrate the lane and the gauge of an account from its row, or start it with a fresh one. */
    method RestoreGauge(a: Address, now: int)
      requires Valid() && a in accounts && accounts[a].model.mode.Booting?
      modifies accounts[a], cache`lanes, cache`accounts, cache.lanes.Values, store
      ensures Valid() && OthersKept(a) && fresh(cache.lanes.Values - old(cache.lanes.Values))
      ensures OnlyLane(old(Models())[a], accounts[a].model) && Models() == old(Models())[a := accounts[a].model]
      ensures store.transactions == old(store.transactions)
    {
      hide Valid, ManagedAccount.Valid;
      var id := AccountId(cfg.chainId, a);
      if id in store.accounts && store.accounts[id].ownerId == cfg.ownerId {
        HydrateGauge(a, store.accounts[id]);
      } else {
        FreshGauge(a, now);
      }
    }

    lemma Owned(i: nat)
      requires Valid() && i < |order|
      ensures order[i] in accounts
    {
      hide ManagedAccount.Valid;
    }

    method RestoreGauges(now: int)
      requires Valid() && FreshStart(Models())
      modifies accounts.Values, cache`lanes, cache`accounts, cache.lanes.Values, store
      ensures Valid() && FreshStart(Models()) && fresh(cache.lanes.Values - old(cache.lanes.Values))
      ensures store.transactions == old(store.transactions)
    {
      hide Valid, ManagedAccount.Valid, OnlyLane, FreshStart;
      for i := 0 to |order|
        invariant Valid() && FreshStart(Models())
        invariant fresh(cache.lanes.Values - old(cache.lanes.Values)) && store.transactions == old(store.transactions)
      {
        var a := order[i];
        ghost var before := Models();
        Owned(i);
        StillFresh(before, a, before[a]);
        RestoreGauge(a, now);
        StillFresh(before, a, accounts[a].model);
      }
    }

    lemma RowsToRestore(txs: seq<TxRecord>)
      requires Valid() && Lists(txs, Active(store.transactions, cfg.ownerId, cfg.chainId)) && FreshStart(Models())
      ensures Remaining(Models(), txs, 0) && Queued(Models(), []) && OneKeyEach(txs, accounts.Keys)
    {
      hide Run, Lists, Active, Share, Remaining, Queued, OneKeyEach;
      forall a | a in accounts
        ensures accounts[a].model.mode == Booting(Share(cfg, a, store.transactions), NoRow)
        ensures forall k | k in Share(cfg, a, store.transactions) ::
                  k in store.transactions && store.transactions[k].key == k && !IsTerminal(store.transactions[k].status)
      {
        assert accounts[a].Valid() && Models()[a] == accounts[a].model;
        LiveShare(cfg, a, accounts[a].trace, store.transactions);
      }
      assert Models().Keys == accounts.Keys;
      ListedRows(cfg, Models(), store.transactions, txs);
    }

    lemma AccountsRecovered()
      requires Valid() && Queued(Models(), []) && AllRestored(Models())
      ensures forall a | a in accounts :: RecoveredFrom(Share(cfg, a, store.transactions), cache.Tracked(a), cache.Cursor(a))
    {
      hide Run, Share, Queued, RecoveredFrom;
      NothingQueued(Models());
      forall a | a in accounts ensures RecoveredFrom(Share(cfg, a, store.transactions), cache.Tracked(a), cache.Cursor(a)) {
        assert accounts[a].Valid() && Models()[a] == accounts[a].model;
        RestoreIsExact(cfg, a, accounts[a].trace, accounts[a].model);
      }
    }

    /** Track, bind and rebroadcast the listed rows. */
    method Rebuild(list: seq<TxRecord>, answers: Place -> ResendAnswers)
      requires Valid() && Remaining(Models(), list, 0) && Queued(Models(), []) && OneKeyEach(list, accounts.Keys)
      modifies accounts.Values, cache`lanes, cache`txs, cache`ordering, cache.lanes.Values, store
      ensures Valid() && Queued(Models(), []) && AllRestored(Models())
      ensures cache.ordering == BoundBy(old(cache.ordering), list, accounts.Keys)
    {
      hide Valid, ManagedAccount.Valid, Remaining, Queued, AllRestored, OneKeyEach;
      var pending := RestoreRows(list);
      NothingRemains(Models(), list);
      Rebroadcasts(pending, answers);
    }

    /** Rebuild everything from the store before new work comes in: afterwards every account is up and
        has recovered exactly its live rows, and the bindings are those of the rows that were live. */
    method Restore(now: int, answers: Place -> ResendAnswers) returns (count: nat, ghost txs: seq<TxRecord>)
      requires Valid() && cache.ordering == map[] && FreshStart(Models())
      modifies accounts.Values, cache, cache.lanes.Values, store
      ensures Valid() && count == |txs|
      ensures Lists(txs, Active(old(store.transactions), cfg.ownerId, cfg.chainId))
      ensures forall a | a in accounts ::
                && accounts[a].model.mode.Up?
                && RecoveredFrom(Share(cfg, a, store.transactions), cache.Tracked(a), cache.Cursor(a))
      ensures cache.ordering == BoundBy(map[], txs, accounts.Keys)
    {
      hide Valid, ManagedAccount.Valid, Lists, Active, Share, Remaining, Queued, AllRestored, OneKeyEach,
           RecoveredFrom, BoundBy, FreshStart;
      RestoreGauges(now);
      var list := store.LoadActiveTransactions(cfg.ownerId, cfg.chainId);
      RowsToRestore(list);
      Rebuild(list, answers);
      AccountsRecovered();
      Finish();
      count, txs := |list|, list;
    }
  }

  /** The account's rows in the table go by their own keys and are live. */
  lemma LiveShare(cfg: Config, a: Address, steps: seq<Step>, table: map<Key, TxRecord>)
    requires Run(cfg, a, steps).Ok? && Run(cfg, a, steps).value.rows == Share(cfg, a, table)
    ensures forall k | k in Share(cfg, a, table) :: k in table && table[k].key == k && !IsTerminal(table[k].status)
  {
    RunKeeps(cfg, a, steps);
    var c := Run(cfg, a, steps).value;
    hide Run;
    TablesGiveRows(cfg, a, c);
    hide TablesOk, LaneOk, SentOk, TurnOk, TickOk, RestoreOk, HistoryOk, CapOk;
  }

  lemma FinishIs(cfg: Config, a: Address, c: Account)
    requires CanFinishBoot(c)
    ensures BootEnabled(cfg, a, c, FinishedBoot) && BootNext(cfg, a, c, FinishedBoot).mode.Up?
  {
  }

  lemma HeadIsQueued(models: map<Address, Account>, pending: seq<Place>)
    requires Queued(models, pending) && pending != []
    ensures pending[0].account in models && pending[0].nonce in models[pending[0].account].resends
    ensures models[pending[0].account].resends[pending[0].nonce].Sending?
  {
    assert pending[0] in pending;
  }

  lemma NothingQueued(models: map<Address, Account>)
    requires Queued(models, [])
    ensures forall a | a in models :: models[a].resends == map[]
  {
    forall a | a in models ensures models[a].resends == map[] {
      assert forall n :: n !in models[a].resends;
    }
  }

  lemma ResendIsTracked(cfg: Config, a: Address, steps: seq<Step>, c: Account, n: nat)
    requires Run(cfg, a, steps) == Ok(c) && n in c.resends
    ensures n in c.tracked
  {
    RunKeeps(cfg, a, steps);
    hide Run;
    BootingFromResend(c, n);
  }

  /** Nothing but the cursor has moved. */
  predicate OnlyLane(c: Account, d: Account) {
    d.(cursor := c.cursor) == c
  }

  /** Every account has just come up over its rows. */
  ghost predicate FreshStart(models: map<Address, Account>) {
    forall a | a in models :: models[a].mode == Booting(models[a].rows, NoRow) && models[a].resends == map[]
  }

  lemma StillFresh(models: map<Address, Account>, a: Address, c: Account)
    requires FreshStart(models) && a in models
    ensures models[a].mode.Booting?
    ensures OnlyLane(models[a], c) ==> FreshStart(models[a := c])
  {
  }

  // ----- what the restore loop has done -----

  /** Nothing is left but the rebroadcasts. */
  ghost predicate AllRestored(models: map<Address, Account>) {
    forall a | a in models :: models[a].mode == Booting(map[], NoRow)
  }

  lemma NothingRemains(models: map<Address, Account>, txs: seq<TxRecord>)
    requires Remaining(models, txs, |txs|)
    ensures AllRestored(models)
  {
    forall a | a in models ensures models[a].mode.todo == map[] {
      assert forall k :: k !in models[a].mode.todo;
    }
  }

  lemma QueuedShrinks(models: map<Address, Account>, pending: seq<Place>, c: Account)
    requires Queued(models, pending) && pending != []
    requires c.resends == models[pending[0].account].resends - {pending[0].nonce}
    ensures Queued(models[pending[0].account := c], pending[1..])
  {
    var next := models[pending[0].account := c];
    forall a, n | a in next && n in next[a].resends ensures next[a].resends[n].Sending? && Place(a, n) in pending[1..] {
      assert Place(a, n) in pending && Place(a, n) != pending[0];
    }
  }

  /** A process that has just started over a table: its restore list is everything it has to do. */
  lemma ListedRows(cfg: Config, models: map<Address, Account>, table: map<Key, TxRecord>, txs: seq<TxRecord>)
    requires Lists(txs, Active(table, cfg.ownerId, cfg.chainId))
    requires forall a | a in models :: models[a].mode == Booting(Share(cfg, a, table), NoRow) && models[a].resends == map[]
    requires forall a, k | a in models && k in Share(cfg, a, table) :: table[k].key == k && !IsTerminal(table[k].status)
    ensures Remaining(models, txs, 0) && Queued(models, []) && OneKeyEach(txs, models.Keys)
  {
    var active := Active(table, cfg.ownerId, cfg.chainId);
    var keys :| ListsBy(txs, active, keys);
    forall j | 0 <= j < |txs| && txs[j].account in models
      ensures txs[j].key == keys[j] && keys[j] in Share(cfg, txs[j].account, table) && table[keys[j]] == txs[j]
    {
      assert keys[j] in active && active[keys[j]] == txs[j];
    }
    forall a, k | a in models && k in models[a].mode.todo
      ensures exists j :: 0 <= j < |txs| && txs[j] == models[a].mode.todo[k] && txs[j].key == k && txs[j].account == a
    {
      assert k in active;
      var j :| 0 <= j < |keys| && keys[j] == k;
      assert txs[j] == table[k];
    }
  }

  /** The rows still to be restored, in both the list and the accounts. */
  ghost predicate Remaining(models: map<Address, Account>, txs: seq<TxRecord>, i: nat) {
    && i <= |txs|
    && (forall a | a in models :: models[a].mode.Booting? && models[a].mode.current.NoRow?)
    && (forall j | i <= j < |txs| && txs[j].account in models ::
          var todo := models[txs[j].account].mode.todo; txs[j].key in todo && todo[txs[j].key] == txs[j])
    && (forall a, k | a in models && k in models[a].mode.todo ::
          exists j :: i <= j < |txs| && txs[j] == models[a].mode.todo[k] && txs[j].key == k && txs[j].account == a)
  }

  predicate OneKeyEach(txs: seq<TxRecord>, owned: set<Address>) {
    forall i, j | 0 <= i < j < |txs| && txs[i].account in owned && txs[i].account == txs[j].account :: txs[i].key != txs[j].key
  }

  /** The rebroadcasts to be made, in both the list and the accounts. */
  ghost predicate Queued(models: map<Address, Account>, pending: seq<Place>) {
    && (forall p | p in pending :: p.account in models && p.nonce in models[p.account].resends)
    && (forall a, n | a in models && n in models[a].resends :: models[a].resends[n].Sending? && Place(a, n) in pending)
    && (forall i, j | 0 <= i < j < |pending| :: pending[i] != pending[j])
  }

  lemma RowCanRestore(models: map<Address, Account>, txs: seq<TxRecord>, i: nat)
    requires Remaining(models, txs, i) && i < |txs| && txs[i].account in models
    ensures CanRestoreTrack(models[txs[i].account], txs[i].key)
    ensures models[txs[i].account].mode.todo[txs[i].key] == txs[i]
  {
  }

  lemma NotOwned(models: map<Address, Account>, txs: seq<TxRecord>, i: nat)
    requires Remaining(models, txs, i) && i < |txs| && txs[i].account !in models
    ensures Remaining(models, txs, i + 1)
  {
    forall a, k | a in models && k in models[a].mode.todo
      ensures exists j :: i + 1 <= j < |txs| && txs[j] == models[a].mode.todo[k] && txs[j].key == k && txs[j].account == a
    {
      var j :| i <= j < |txs| && txs[j] == models[a].mode.todo[k] && txs[j].key == k && txs[j].account == a;
      assert j != i;
    }
  }

  function RowDone(c: Account, k: Key): Account
    requires CanRestoreTrack(c, k)
  {
    RestoreBound(RestoreSeed(RestoreTrack(c, k)))
  }

  /** Restoring one row takes it off the list. */
  lemma RowRemaining(models: map<Address, Account>, txs: seq<TxRecord>, i: nat)
    requires Remaining(models, txs, i) && i < |txs| && txs[i].account in models && OneKeyEach(txs, models.Keys)
    requires CanRestoreTrack(models[txs[i].account], txs[i].key)
    ensures Remaining(models[txs[i].account := RowDone(models[txs[i].account], txs[i].key)], txs, i + 1)
  {
    var a := txs[i].account;
    var next := models[a := RowDone(models[a], txs[i].key)];
    assert next[a].mode.todo == models[a].mode.todo - {txs[i].key};
    forall b, k | b in next && k in next[b].mode.todo
      ensures exists j :: i + 1 <= j < |txs| && txs[j] == next[b].mode.todo[k] && txs[j].key == k && txs[j].account == b
    {
      var j :| i <= j < |txs| && txs[j] == models[b].mode.todo[k] && txs[j].key == k && txs[j].account == b;
      assert j != i;
    }
  }

  /** And queues its rebroadcast if it was pending. */
  lemma RowQueued(models: map<Address, Account>, r: TxRecord, pending: seq<Place>)
    requires Queued(models, pending) && r.account in models && CanRestoreTrack(models[r.account], r.key)
    requires models[r.account].mode.todo[r.key] == r && r.nonce !in models[r.account].resends
    ensures Queued(models[r.account := RowDone(models[r.account], r.key)],
                   if r.status.Pending? then pending + [Place(r.account, r.nonce)] else pending)
  {
    var next := models[r.account := RowDone(models[r.account], r.key)];
    assert Place(r.account, r.nonce) !in pending;
    if r.status.Pending? {
      assert Place(r.account, r.nonce) in pending + [Place(r.account, r.nonce)];
    } else {
      assert next[r.account].resends == models[r.account].resends;
    }
  }

  /** The bindings after binding the ordering key of every row of an owned account. */
  function BoundBy(binds: map<OrderingKey, Binding>, txs: seq<TxRecord>, owned: set<Address>): map<OrderingKey, Binding> {
    if txs == [] then binds
    else
      var before := BoundBy(binds, txs[..|txs| - 1], owned);
      var r := txs[|txs| - 1];
      if r.account in owned then PoolProtocol.BindSome(before, r.orderingKey, r.account) else before
  }

  /** How many rows of owned accounts have an ordering key. */
  function RowsUnder(txs: seq<TxRecord>, owned: set<Address>, o: OrderingKey): nat {
    if txs == [] then 0
    else
      RowsUnder(txs[..|txs| - 1], owned, o) +
      if txs[|txs| - 1].account in owned && txs[|txs| - 1].orderingKey == Some(o) then 1 else 0
  }

  /** Restore rebuilds the bindings: a key is bound exactly if an owned row has it, holds one ref for
      each such row, and is pinned to the account of its rows if they are all on one. */
  lemma {:induction false} RestoredRefs(txs: seq<TxRecord>, owned: set<Address>, o: OrderingKey, a: Address)
    ensures var binds := BoundBy(map[], txs, owned);
            && (o in binds <==> RowsUnder(txs, owned, o) > 0)
            && (o in binds ==> binds[o].refs == RowsUnder(txs, owned, o))
            && (o in binds && (forall i | 0 <= i < |txs| && txs[i].account in owned && txs[i].orderingKey == Some(o) :: txs[i].account == a)
                ==> binds[o].account == a)
  {
    if txs != [] {
      RestoredRefs(txs[..|txs| - 1], owned, o, a);
      var r := txs[|txs| - 1];
      assert r == txs[|txs| - 1];
    }
  }

  lemma NotQueuedYet(cfg: Config, a: Address, steps: seq<Step>, c: Account, k: Key)
    requires Run(cfg, a, steps) == Ok(c) && CanRestoreTrack(c, k)
    ensures c.mode.todo[k].nonce !in c.resends
  {
    RunKeeps(cfg, a, steps);
    hide Run, Inv;
    TodoRow(cfg, a, c, k);
  }

  datatype Place = Place(account: Address, nonce: nat)
}
