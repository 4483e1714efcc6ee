/** What the writes of the actors do to each group of the account invariant. */
module AccountWrites {
  import opened Records
  import opened FeeOracles
  import opened AccountProtocol
  import opened AccountInvariant

  // ----- lemmas about the tables -----

  /** Replacing a row by another state of the same slot. */
  lemma RowUpdate(cfg: Config, a: Address, rows: map<Key, TxRecord>, r: TxRecord)
    requires RowsOk(cfg, a, rows) && NoncesDistinct(rows)
    requires r.key in rows && SameSlot(rows[r.key], r) && RowOk(cfg, a, r.key, r)
    ensures RowsOk(cfg, a, Upsert(rows, r)) && NoncesDistinct(Upsert(rows, r))
    ensures RowNonces(Upsert(rows, r)) == RowNonces(rows)
  {
    var next := Upsert(rows, r);
    forall n | n in RowNonces(rows) ensures n in RowNonces(next) {
      var k :| k in rows && rows[k].nonce == n;
      assert k in next && next[k].nonce == n;
    }
  }

  lemma RowRemoval(cfg: Config, a: Address, rows: map<Key, TxRecord>, k: Key)
    requires RowsOk(cfg, a, rows) && NoncesDistinct(rows)
    ensures RowsOk(cfg, a, rows - {k}) && NoncesDistinct(rows - {k})
    ensures |RowNonces(rows - {k})| <= |RowNonces(rows)|
  {
    SubsetCard(RowNonces(rows - {k}), RowNonces(rows));
  }

  lemma SubsetCard<T>(s: set<T>, t: set<T>)
    requires s <= t
    ensures |s| <= |t|
  {
    assert t == s + (t - s);
  }

  /** In a running account every row has a tracked nonce, except the row of the open turn. */
  lemma RowNoncesTracked(mode: Mode, rows: map<Key, TxRecord>, tracked: map<nat, TxRecord>)
    requires mode.Up? && StoreInCache(mode, rows, tracked, None)
    ensures RowNonces(rows) <= tracked.Keys
  {
  }

  /** While the rows are being restored, only nonces of rows are tracked. */
  lemma TrackedAreRows(rows: map<Key, TxRecord>, tracked: map<nat, TxRecord>, resends: map<nat, Resend>)
    requires CacheInStore(rows, tracked, InStep, resends)
    requires forall n | n in tracked :: tracked[n].nonce == n
    ensures tracked.Keys <= RowNonces(rows)
  {
    forall n | n in tracked ensures n in RowNonces(rows) {
      assert InStore(rows, tracked[n], Persisted(tracked[n], InStep, resends));
    }
  }

  // ----- lemmas about the history -----

  lemma CountAppend(es: seq<Event>, x: Event, e: Event)
    ensures Count(es + [x], e) == Count(es, e) + (if x == e then 1 else 0)
  {
    assert (es + [x])[..|es|] == es;
  }

  lemma MaySignRow(cfg: Config, a: Address, rows: map<Key, TxRecord>, lives: map<Key, Life>, k: Key)
    requires RowsOk(cfg, a, rows) && RowLivesOk(cfg, rows, lives) && k in rows
    ensures k in lives && MaySign(cfg, lives[k].origin, SignableOf(rows[k]))
  {
    assert RowOk(cfg, a, k, rows[k]) && RowLife(cfg, rows[k], lives[k]);
    var j: nat := rows[k].attempts - 1;
    assert j <= Levels(cfg) && BumpTimes(cfg.oracle, lives[k].origin.fees, j) == Ok(SignableOf(rows[k]).fees);
  }

  lemma MaySignReplacement(cfg: Config, a: Address, rows: map<Key, TxRecord>, lives: map<Key, Life>, k: Key)
    requires RowsOk(cfg, a, rows) && RowLivesOk(cfg, rows, lives) && k in rows
    requires rows[k].attempts < cfg.maxAttempts && Bump(cfg.oracle, rows[k].fees).Ok?
    ensures k in lives && MaySign(cfg, lives[k].origin, ReplacePayload(cfg, rows[k]))
  {
    assert RowOk(cfg, a, k, rows[k]) && RowLife(cfg, rows[k], lives[k]);
    var j: nat := rows[k].attempts;
    assert j <= Levels(cfg) && BumpTimes(cfg.oracle, lives[k].origin.fees, j) == Ok(ReplacePayload(cfg, rows[k]).fees);
  }

  /** The histories agree on everything the actors look at. */
  predicate SameOutcome(lives: map<Key, Life>, next: map<Key, Life>) {
    && lives.Keys == next.Keys
    && forall k | k in lives :: lives[k].settled == next[k].settled && lives[k].events == next[k].events
  }

  lemma SignKeeps(cfg: Config, rows: map<Key, TxRecord>, lives: map<Key, Life>, k: Key, s: SignableTx)
    requires HistoryOk(cfg, rows, lives) && k in lives && MaySign(cfg, lives[k].origin, s)
    ensures HistoryOk(cfg, rows, Sign(lives, k, s)) && SameOutcome(lives, Sign(lives, k, s))
    ensures forall l | l in lives :: lives[l].accepted == Sign(lives, k, s)[l].accepted
  {
  }

  lemma AcceptKeeps(cfg: Config, rows: map<Key, TxRecord>, lives: map<Key, Life>, k: Key)
    requires HistoryOk(cfg, rows, lives) && k in rows
    ensures HistoryOk(cfg, rows, Accept(lives, k)) && SameOutcome(lives, Accept(lives, k))
  {
    hide Count, NoEnd, BumpTimes, EventsOk, PayloadsOk;
  }

  /** Emitting the pending event of an update leaves the events a live row allows. */
  lemma UpdateEvent(cfg: Config, r: TxRecord, es: seq<Event>, e: Event)
    requires EventsOk(cfg, es) && NoEnd(es) && UpdatePending(r, e, es)
    requires Count(es, EvMined) <= (if r.minedEmitted then 1 else 0) && Count(es, EvReplaced) <= r.attempts - 1
    requires r.attempts == 1 || r.attempts <= cfg.maxAttempts
    ensures EventsOk(cfg, es + [e]) && NoEnd(es + [e])
    ensures Count(es + [e], EvMined) <= (if r.minedEmitted then 1 else 0)
    ensures Count(es + [e], EvReplaced) <= r.attempts - 1
  {
    CountAppend(es, e, EvMined);
    CountAppend(es, e, EvReplaced);
    hide Count;
  }

  lemma EmitUpdateKeeps(cfg: Config, a: Address, rows: map<Key, TxRecord>, lives: map<Key, Life>, k: Key, e: Event)
    requires RowsOk(cfg, a, rows) && HistoryOk(cfg, rows, lives)
    requires k in rows && k in lives && UpdatePending(rows[k], e, lives[k].events)
    ensures HistoryOk(cfg, rows, Emit(lives, k, e))
  {
    hide Count, NoEnd, EventsOk, PayloadsOk, BumpTimes, UpdatePending;
    assert RowOk(cfg, a, k, rows[k]) && RowLife(cfg, rows[k], lives[k]);
    UpdateEvent(cfg, rows[k], lives[k].events, e);
    hide RowsOk;
  }

  lemma EndEventOk(cfg: Config, es: seq<Event>, e: Event)
    requires EventsOk(cfg, es) && NoEnd(es) && IsEnd(e)
    ensures EventsOk(cfg, es + [e])
  {
    CountAppend(es, e, EvMined);
    CountAppend(es, e, EvReplaced);
    hide Count;
  }

  lemma EmitEndKeeps(cfg: Config, rows: map<Key, TxRecord>, lives: map<Key, Life>, k: Key, e: Event)
    requires HistoryOk(cfg, rows, lives) && EndPending(rows, lives, k, e)
    ensures HistoryOk(cfg, rows, Emit(lives, k, e))
  {
    EndEventOk(cfg, lives[k].events, e);
    hide EventsOk, PayloadsOk, RowLife, NoEnd;
  }

  lemma SettleKeepsHistory(cfg: Config, rows: map<Key, TxRecord>, lives: map<Key, Life>, k: Key)
    requires HistoryOk(cfg, rows, lives)
    ensures HistoryOk(cfg, rows - {k}, MarkSettled(lives, k))
  {
  }

  /** A row may move to a state that its life allows. */
  lemma UpdateKeepsHistory(cfg: Config, rows: map<Key, TxRecord>, lives: map<Key, Life>, r: TxRecord)
    requires HistoryOk(cfg, rows, lives) && r.key in lives && RowLife(cfg, r, lives[r.key]) && !IsTerminal(r.status)
    ensures HistoryOk(cfg, Upsert(rows, r), lives)
  {
  }

  // ----- lemmas about the tick -----

  /** The record the tick comes to next is the row in the store. */
  lemma NextIsRow(cfg: Config, a: Address, c: Account)
    requires Inv(cfg, a, c) && HasNext(c)
    ensures var r := c.tick.todo[0];
            && Holds(c.tracked, r) && r.key in c.rows && c.rows[r.key] == r && r.key in c.lives
            && RowOk(cfg, a, r.key, r) && RowLife(cfg, r, c.lives[r.key])
            && TodoOk(c.tracked, c.tick.todo[1..], Some(r.nonce))
  {
    hide NoncesDistinct, StoreInCache, LaneOk, SentOk, TurnOk, LivesOk, NothingLost, CapOk, RowLife;
    var r := c.tick.todo[0];
    assert Holds(c.tracked, r);
    NothingResent(c.mode, c.resends, c.rows, c.tracked);
    hide RestoreOk;
    assert InStore(c.rows, r, Persisted(r, StoreAhead(c.tick), c.resends));
  }

  lemma TickKeepsOutcome(cfg: Config, up: bool, tick: Tick, tracked: map<nat, TxRecord>,
                         rows: map<Key, TxRecord>, lives: map<Key, Life>, next: map<Key, Life>)
    requires TickOk(cfg, up, tick, tracked, rows, lives) && SameOutcome(lives, next)
    ensures TickOk(cfg, up, tick, tracked, rows, next)
  {
  }

  // ----- what a write does to each group -----

  /** The turn writes its own row: a first one, or the next state of it. */
  lemma TurnWrite(cfg: Config, a: Address, mode: Mode, rows: map<Key, TxRecord>, tracked: map<nat, TxRecord>,
                  pending: Option<TxRecord>, ahead: Ahead, r: TxRecord)
    requires TablesOk(cfg, a, mode, rows, tracked, pending, ahead, map[]) && mode.Up?
    requires RowOk(cfg, a, r.key, r) && (forall n | n in tracked :: n < r.nonce && tracked[n].key != r.key)
    requires pending.Some? ==> r.key in rows && rows[r.key] == pending.value && pending.value.nonce == r.nonce && pending.value.key == r.key
    requires pending.None? ==> r.key !in rows
    ensures TablesOk(cfg, a, mode, Upsert(rows, r), tracked, Some(r), ahead, map[])
  {
    assert CacheInStore(Upsert(rows, r), tracked, ahead, map[]) by {
      forall n | n in tracked ensures InStore(Upsert(rows, r), tracked[n], Persisted(tracked[n], ahead, map[])) {
        assert InStore(rows, tracked[n], Persisted(tracked[n], ahead, map[]));
      }
    }
    hide CacheInStore, RowOk;
  }

  lemma TurnRemove(cfg: Config, a: Address, mode: Mode, rows: map<Key, TxRecord>, tracked: map<nat, TxRecord>,
                   r: TxRecord, ahead: Ahead)
    requires TablesOk(cfg, a, mode, rows, tracked, Some(r), ahead, map[])
    requires r.key in rows && forall n | n in tracked :: tracked[n].key != r.key
    requires RowOk(cfg, a, r.key, r)
    ensures TablesOk(cfg, a, mode, rows - {r.key}, tracked, None, ahead, map[])
  {
    RowRemoval(cfg, a, rows, r.key);
    assert CacheInStore(rows - {r.key}, tracked, ahead, map[]) by {
      forall n | n in tracked ensures InStore(rows - {r.key}, tracked[n], Persisted(tracked[n], ahead, map[])) {
        assert InStore(rows, tracked[n], Persisted(tracked[n], ahead, map[]));
      }
    }
    hide CacheInStore, RowOk;
  }

  /** A record that is in the store enters the cache. */
  lemma TrackRow(cfg: Config, a: Address, mode: Mode, rows: map<Key, TxRecord>, tracked: map<nat, TxRecord>,
                 pending: Option<TxRecord>, ahead: Ahead, resends: map<nat, Resend>, r: TxRecord)
    requires TablesOk(cfg, a, mode, rows, tracked, pending, ahead, resends)
    requires r.key in rows && rows[r.key] == r && r.nonce !in resends
    requires !ahead.InStep? ==> ahead.rec.nonce != r.nonce
    requires pending.Some? ==> pending.value == r
    ensures TablesOk(cfg, a, mode, rows, tracked[r.nonce := r], None, ahead, resends)
  {
    var next := tracked[r.nonce := r];
    assert RowOk(cfg, a, r.key, r);
    assert CacheInStore(rows, next, ahead, resends) by {
      forall n | n in next ensures InStore(rows, next[n], Persisted(next[n], ahead, resends)) {
        if n != r.nonce {
          assert InStore(rows, tracked[n], Persisted(tracked[n], ahead, resends));
        }
      }
    }
    assert StoreInCache(mode, rows, next, None) by {
      if !mode.Down? {
        forall k | k in rows ensures Located(mode, next, None, k, rows[k]) {
          assert Located(mode, tracked, pending, k, rows[k]);
          assert k != r.key ==> rows[k].nonce != r.nonce;
        }
      }
    }
    hide CacheInStore, StoreInCache, RowOk;
  }

  /** Two tracked records never have the same key while nothing is half written. */
  lemma TrackedKeysDistinct(rows: map<Key, TxRecord>, tracked: map<nat, TxRecord>, ahead: Ahead, m: nat, n: nat)
    requires CacheInStore(rows, tracked, ahead, map[])
    requires forall i | i in tracked :: tracked[i].nonce == i
    requires m in tracked && n in tracked && m != n
    requires (ahead.Removing? ==> m != ahead.rec.nonce && n != ahead.rec.nonce)
    requires ahead.Updating? ==> SameSlot(ahead.rec, tracked[n]) || ahead.rec.nonce != n
    ensures tracked[m].key != tracked[n].key
  {
    assert InStore(rows, tracked[m], Persisted(tracked[m], ahead, map[]));
    assert InStore(rows, tracked[n], Persisted(tracked[n], ahead, map[]));
  }

  /** The tick persists the next state of a tracked record. */
  lemma TickWrite(cfg: Config, a: Address, mode: Mode, rows: map<Key, TxRecord>, tracked: map<nat, TxRecord>,
                  pending: Option<TxRecord>, r: TxRecord)
    requires TablesOk(cfg, a, mode, rows, tracked, pending, InStep, map[]) && mode.Up?
    requires r.nonce in tracked && SameSlot(tracked[r.nonce], r) && RowOk(cfg, a, r.key, r)
    requires pending.Some? ==> pending.value.key != r.key
    ensures TablesOk(cfg, a, mode, Upsert(rows, r), tracked, pending, Updating(r), map[])
  {
    var next := Upsert(rows, r);
    assert InStore(rows, tracked[r.nonce], Persisted(tracked[r.nonce], InStep, map[]));
    RowUpdate(cfg, a, rows, r);
    assert CacheInStore(next, tracked, Updating(r), map[]) by {
      forall n | n in tracked ensures InStore(next, tracked[n], Persisted(tracked[n], Updating(r), map[])) {
        assert InStore(rows, tracked[n], Persisted(tracked[n], InStep, map[]));
        if n != r.nonce { TrackedKeysDistinct(rows, tracked, InStep, n, r.nonce); }
      }
    }
    assert StoreInCache(mode, next, tracked, pending) by {
      forall k | k in next ensures Located(mode, tracked, pending, k, next[k]) {
        assert Located(mode, tracked, pending, k, rows[k]);
      }
    }
    hide CacheInStore, StoreInCache, RowOk, RowsOk, NoncesDistinct;
  }

  /** The tick persists the terminal state of a tracked record. */
  lemma TickRemove(cfg: Config, a: Address, mode: Mode, rows: map<Key, TxRecord>, tracked: map<nat, TxRecord>,
                   pending: Option<TxRecord>, r: TxRecord)
    requires TablesOk(cfg, a, mode, rows, tracked, pending, InStep, map[]) && Holds(tracked, r)
    ensures TablesOk(cfg, a, mode, rows - {r.key}, tracked, pending, Removing(r), map[])
  {
    var next := rows - {r.key};
    RowRemoval(cfg, a, rows, r.key);
    assert CacheInStore(next, tracked, Removing(r), map[]) by {
      forall n | n in tracked ensures InStore(next, tracked[n], Persisted(tracked[n], Removing(r), map[])) {
        assert InStore(rows, tracked[n], Persisted(tracked[n], InStep, map[]));
        if n != r.nonce { TrackedKeysDistinct(rows, tracked, InStep, n, r.nonce); }
      }
    }
    hide CacheInStore, RowOk, RowsOk, NoncesDistinct;
  }

  /** A settled record leaves the cache. */
  lemma Untrack(cfg: Config, a: Address, mode: Mode, rows: map<Key, TxRecord>, tracked: map<nat, TxRecord>,
                pending: Option<TxRecord>, r: TxRecord)
    requires TablesOk(cfg, a, mode, rows, tracked, pending, Removing(r), map[]) && Holds(tracked, r) && r.key !in rows
    ensures TablesOk(cfg, a, mode, rows, tracked - {r.nonce}, pending, InStep, map[])
  {
    var next := tracked - {r.nonce};
    assert CacheInStore(rows, next, InStep, map[]) by {
      forall n | n in next ensures InStore(rows, next[n], Persisted(next[n], InStep, map[])) {
        assert InStore(rows, tracked[n], Persisted(tracked[n], Removing(r), map[]));
      }
    }
    assert StoreInCache(mode, rows, next, pending) by {
      if !mode.Down? {
        forall k | k in rows ensures Located(mode, next, pending, k, rows[k]) {
          assert Located(mode, tracked, pending, k, rows[k]);
        }
      }
    }
    hide CacheInStore, StoreInCache, RowOk, RowsOk, NoncesDistinct;
  }

  /** The cache catches up with the store. */
  lemma CatchUp(cfg: Config, a: Address, mode: Mode, rows: map<Key, TxRecord>, tracked: map<nat, TxRecord>,
                pending: Option<TxRecord>, ahead: Ahead, resends: map<nat, Resend>, r: TxRecord)
    requires TablesOk(cfg, a, mode, rows, tracked, pending, ahead, resends)
    requires r.nonce in tracked && SameSlot(tracked[r.nonce], r)
    requires Persisted(tracked[r.nonce], ahead, resends) == Some(r)
    requires ahead == InStep || ahead == Updating(r)
    ensures TablesOk(cfg, a, mode, rows, tracked[r.nonce := r], pending, InStep, resends - {r.nonce})
  {
    var next := tracked[r.nonce := r];
    assert InStore(rows, tracked[r.nonce], Persisted(tracked[r.nonce], ahead, resends));
    assert RowOk(cfg, a, r.key, r);
    assert CacheInStore(rows, next, InStep, resends - {r.nonce}) by {
      forall n | n in next ensures InStore(rows, next[n], Persisted(next[n], InStep, resends - {r.nonce})) {
        if n != r.nonce {
          assert InStore(rows, tracked[n], Persisted(tracked[n], ahead, resends));
        }
      }
    }
    assert StoreInCache(mode, rows, next, pending) by {
      if !mode.Down? {
        forall k | k in rows ensures Located(mode, next, pending, k, rows[k]) {
          assert Located(mode, tracked, pending, k, rows[k]);
        }
      }
    }
    hide CacheInStore, StoreInCache, RowOk, RowsOk, NoncesDistinct;
  }

  /** The row an open turn depends on. */
  function TurnKey(turn: Turn): Option<Key> {
    match turn
    case Allocated(sub, _) => Some(sub.key)
    case Admitted(sub, _) => Some(sub.key)
    case _ => if PendingRow(turn).Some? then Some(PendingRow(turn).value.key) else None
  }

  /** An open turn does not notice writes to other keys. */
  lemma TurnFrame(up: bool, turn: Turn, rows: map<Key, TxRecord>, lives: map<Key, Life>, tracked: map<nat, TxRecord>,
                  reporting: Option<Key>, rows': map<Key, TxRecord>, lives': map<Key, Life>,
                  tracked': map<nat, TxRecord>, reporting': Option<Key>)
    requires TurnOk(up, turn, rows, lives, tracked, reporting)
    requires TurnKey(turn).Some? ==>
      var k := TurnKey(turn).value;
      && (k in rows <==> k in rows') && (k in rows ==> rows[k] == rows'[k])
      && (k in lives ==> k in lives' && lives[k].accepted == lives'[k].accepted)
      && Untracked(tracked', reporting', k)
    ensures TurnOk(up, turn, rows', lives', tracked', reporting')
  {
  }

  /** The tick does not notice new records, nor writes to other keys. */
  lemma TickFrame(cfg: Config, up: bool, tick: Tick, tracked: map<nat, TxRecord>, rows: map<Key, TxRecord>,
                  lives: map<Key, Life>, tracked': map<nat, TxRecord>, rows': map<Key, TxRecord>, lives': map<Key, Life>)
    requires TickOk(cfg, up, tick, tracked, rows, lives)
    requires forall n | n in tracked :: n in tracked' && tracked'[n] == tracked[n]
    requires (tick.Settling? || tick.Dropped?) && tick.rec.key !in rows ==> tick.rec.key !in rows'
    requires !tick.Asleep? && !tick.Scanning? && !tick.Resent? && tick.rec.key in lives ==>
      tick.rec.key in lives' && lives'[tick.rec.key] == lives[tick.rec.key]
    ensures TickOk(cfg, up, tick, tracked', rows', lives')
  {
    hide Count, NoEnd;
  }

  lemma NothingResent(mode: Mode, resends: map<nat, Resend>, rows: map<Key, TxRecord>, tracked: map<nat, TxRecord>)
    requires RestoreOk(mode, resends, rows, tracked) && mode.Up?
    ensures resends == map[]
  {
    forall n ensures n !in resends {
    }
  }

  /** A running account is not restoring anything. */
  lemma RestoreIdle(mode: Mode, rows: map<Key, TxRecord>, tracked: map<nat, TxRecord>)
    requires mode.Up?
    ensures RestoreOk(mode, map[], rows, tracked)
  {
  }
}
