/** What every step of the pool keeps: the accounts' invariants, one table for all of them, and the
    conservation of sticky refs. */
module PoolInvariant {
  import opened Records
  import opened AccountProtocol
  import opened AccountInvariant
  import opened AccountWrites
  import opened AccountSteps
  import opened PoolProtocol
  import opened PoolBindings
  import opened PoolViews

  predicate StageOf(stage: Stage, mode: Mode) {
    match stage
    case AllDown => mode.Down?
    case AllBooting => mode.Booting?
    case AllUp => mode.Up?
  }

  predicate AccountsOk(cfg: Config, stage: Stage, accts: map<Address, Account>) {
    forall a | a in accts :: Inv(cfg, a, accts[a]) && StageOf(stage, accts[a].mode)
  }

  /** Each account's rows are its share of the one table. */
  predicate StoreOk(cfg: Config, store: map<Key, TxRecord>, accts: map<Address, Account>) {
    && (forall a, k | a in accts && k in accts[a].rows ::
          k in store && store[k] == accts[a].rows[k] && store[k].account == a && Mine(cfg, accts.Keys, store[k]))
    && (forall k | k in store && Mine(cfg, accts.Keys, store[k]) :: k in accts[store[k].account].rows)
  }

  /** Rows of others are not touched. */
  predicate ForeignOk(cfg: Config, owned: set<Address>, foreign: map<Key, TxRecord>, store: map<Key, TxRecord>) {
    forall k | k in foreign :: k in store && store[k] == foreign[k] && !Mine(cfg, owned, store[k])
  }

  /** Nothing the account tracks or is about to report goes by this key. */
  predicate ViewFree(v: View, k: Key) {
    && (forall n | n in v.slots :: v.slots[n].key != k)
    && (v.report.Some? ==> v.report.value.key != k)
  }

  /** A key that waits for its lane or its write-ahead is nowhere else. */
  predicate QueueOk(store: map<Key, TxRecord>, accts: map<Address, Account>, tickets: map<Key, Ticket>) {
    && (forall k, a | k in tickets && tickets[k].phase.InQueue? && a in accts :: ViewFree(ViewOf(accts[a]), k))
    && (forall k | k in tickets && tickets[k].phase.InQueue? :: k !in store)
    && (forall a | a in accts && UnwrittenKey(accts[a].turn).Some? :: UnwrittenKey(accts[a].turn).value !in store)
  }

  function UnwrittenKey(turn: Turn): Option<Key> {
    match turn
    case Allocated(sub, _) => Some(sub.key)
    case Admitted(sub, _) => Some(sub.key)
    case _ => None
  }

  /** All live rows of an ordering key sit on one account. */
  predicate OneAccountPerStream(cfg: Config, owned: set<Address>, store: map<Key, TxRecord>) {
    forall k, l |
      && k in store && l in store && Mine(cfg, owned, store[k]) && Mine(cfg, owned, store[l])
      && store[k].orderingKey.Some? && store[k].orderingKey == store[l].orderingKey
      :: store[k].account == store[l].account
  }

  predicate StageOk(p: Pool) {
    && (!p.stage.AllUp? ==> p.tickets == map[])
    && (p.stage.AllDown? ==> p.tokens == map[] && p.binds == map[])
  }

  predicate PoolInv(cfg: Config, owned: set<Address>, foreign: map<Key, TxRecord>, p: Pool) {
    && p.accts.Keys == owned
    && AccountsOk(cfg, p.stage, p.accts)
    && StoreOk(cfg, p.store, p.accts)
    && ForeignOk(cfg, owned, foreign, p.store)
    && BindingsOk(Views(p.accts), p.tickets, p.tokens, p.binds)
    && QueueOk(p.store, p.accts, p.tickets)
    && OneAccountPerStream(cfg, owned, p.store)
    && StageOk(p)
  }

  // ----- the table -----

  /** A write of one account's row shows in its share of the table and in no other. */
  lemma TableWrite(cfg: Config, store: map<Key, TxRecord>, accts: map<Address, Account>, a: Address, c: Account, r: TxRecord)
    requires StoreOk(cfg, store, accts) && a in accts
    requires Mine(cfg, accts.Keys, r) && r.account == a
    requires r.key in store ==> r.key in accts[a].rows
    requires c.rows == Upsert(accts[a].rows, r)
    ensures StoreOk(cfg, Upsert(store, r), accts[a := c])
  {
    var next := accts[a := c];
    assert next.Keys == accts.Keys;
    assert r.key in store ==> store[r.key].account == a;
    forall b, k | b in next && k in next[b].rows
      ensures k in Upsert(store, r) && Upsert(store, r)[k] == next[b].rows[k] && Upsert(store, r)[k].account == b
    {
      if b != a {
        assert k in accts[b].rows && store[k].account == b;
      }
    }
  }

  lemma TableSame(cfg: Config, store: map<Key, TxRecord>, accts: map<Address, Account>, a: Address, c: Account)
    requires StoreOk(cfg, store, accts) && a in accts && c.rows == accts[a].rows
    ensures StoreOk(cfg, store, accts[a := c])
  {
    assert accts[a := c].Keys == accts.Keys;
  }

  // ----- live rows of a stream are pinned -----

  lemma ViewAt(accts: map<Address, Account>, a: Address)
    requires a in accts
    ensures a in Views(accts) && Views(accts)[a] == ViewOf(accts[a])
  {
  }

  /** In a running account, a live row is held by a tracked record or by the open turn. */
  lemma RowHasHolder(cfg: Config, a: Address, c: Account, k: Key)
    requires Inv(cfg, a, c) && c.mode.Up? && k in c.rows
    ensures || (exists n :: n in ViewOf(c).slots && ViewOf(c).slots[n] == SlotOf(c.rows[k]))
            || (c.turn != Idle && !c.turn.Landed? && TurnSlot(c.turn) == Some(SlotOf(c.rows[k])))
  {
    NothingResent(c.mode, c.resends, c.rows, c.tracked);
    hide LaneOk, SentOk, TurnOk, TickOk, RestoreOk, HistoryOk, CapOk, NoncesDistinct;
    var r := c.rows[k];
    assert RowOk(cfg, a, k, r);
    assert Located(c.mode, c.tracked, PendingRow(c.turn), k, r);
    if r.nonce in c.tracked && c.tracked[r.nonce].key == k {
      assert InStore(c.rows, c.tracked[r.nonce], Persisted(c.tracked[r.nonce], StoreAhead(c.tick), map[]));
      assert ViewOf(c).slots[r.nonce] == SlotOf(r);
    }
  }

  /** The stream of a live row is bound, to the row's account. */
  lemma RowIsPinned(cfg: Config, owned: set<Address>, foreign: map<Key, TxRecord>, p: Pool, k: Key)
    requires PoolInv(cfg, owned, foreign, p) && p.stage.AllUp?
    requires k in p.store && Mine(cfg, owned, p.store[k]) && p.store[k].orderingKey.Some?
    ensures var o := p.store[k].orderingKey.value; o in p.binds && p.binds[o].account == p.store[k].account
  {
    hide Inv, ForeignOk, QueueOk, OneAccountPerStream, RefsOk, TokensHeld, SlotOf, ViewOf;
    var r := p.store[k];
    var a := r.account;
    ViewAt(p.accts, a);
    assert Inv(cfg, a, p.accts[a]) && p.accts[a].rows[k] == r;
    RowHolderToken(cfg, p, a, k);
  }

  lemma RowHolderToken(cfg: Config, p: Pool, a: Address, k: Key)
    requires a in p.accts && Inv(cfg, a, p.accts[a]) && p.accts[a].mode.Up? && k in p.accts[a].rows
    requires BindingsOk(Views(p.accts), p.tickets, p.tokens, p.binds)
    requires p.accts[a].rows[k].orderingKey.Some?
    ensures var r := p.accts[a].rows[k];
            && r.key in p.tokens && p.tokens[r.key].orderingKey == r.orderingKey.value
            && TokenAccount(p.tickets, r.key, p.tokens[r.key]) == Some(a)
  {
    hide Inv, RefsOk, TokensHeld, PinsOk, TicketsOk;
    var c := p.accts[a];
    var r := c.rows[k];
    ViewAt(p.accts, a);
    RowHasHolder(cfg, a, c, k);
    if n :| n in ViewOf(c).slots && ViewOf(c).slots[n] == SlotOf(r) {
      assert HasToken(p.tokens, Views(p.accts)[a].slots[n], ByTx(a, n));
    } else {
      assert AtLarge(Views(p.accts), p.tickets[r.key]);
      assert HasToken(p.tokens, Slot(r.key, p.tickets[r.key].sub.orderingKey), BySubmit);
    }
  }
}
