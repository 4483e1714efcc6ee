/** What holds of a managed account in every state of every run, whatever the interleaving of
    submits, ticks, nonce seeds and crashes, and what happens outside the assumptions. */
module AccountTheorems {
  import opened Records
  import opened FeeOracles
  import opened Cursors
  import opened AccountProtocol
  import opened AccountInvariant
  import opened AccountWrites
  import opened AccountSteps

  // ----- crash recovery -----

  /** Whatever the node has accepted is in the store until its terminal row is written, and no row
      of a settled transaction is there: in every state, so also right after a crash. */
  lemma NoAcceptedTxIsLost(cfg: Config, a: Address, steps: seq<Step>, c: Account, k: Key)
    requires Run(cfg, a, steps) == Ok(c)
    ensures k in c.lives ==>
              && (c.lives[k].accepted && !c.lives[k].settled ==> k in c.rows && !IsTerminal(c.rows[k].status))
              && (c.lives[k].settled ==> k !in c.rows)
  {
    RunKeeps(cfg, a, steps);
    hide Run;
    hide LaneOk, SentOk, TurnOk, TickOk, RestoreOk, CapOk, LivesOk, NoncesDistinct, TrackedOk, CacheInStore, StoreInCache;
    if k in c.rows {
      assert RowOk(cfg, a, k, c.rows[k]) && RowLife(cfg, c.rows[k], c.lives[k]);
    }
  }

  /** The cache holds exactly these rows, one record a row, and the lane is past all of them. */
  predicate RecoveredFrom(rows: map<Key, TxRecord>, tracked: map<nat, TxRecord>, cursor: Option<nat>) {
    && (forall k | k in rows :: Holds(tracked, rows[k]))
    && (forall n | n in tracked :: tracked[n].key in rows && rows[tracked[n].key] == tracked[n])
    && (forall k | k in rows :: cursor.Some? && rows[k].nonce < cursor.value)
    && |tracked| == |rows|
  }

  lemma RestoredTables(cfg: Config, a: Address, c: Account)
    requires Inv(cfg, a, c) && CanFinishBoot(c)
    ensures forall n | n in c.tracked :: c.tracked[n].nonce == n && c.tracked[n].key in c.rows && c.rows[c.tracked[n].key] == c.tracked[n]
    ensures forall k | k in c.rows :: Holds(c.tracked, c.rows[k])
  {
    RestoreIsIdle(cfg, a, c);
    hide LaneOk, SentOk, TurnOk, TickOk, RestoreOk, HistoryOk, CapOk, RowsOk, NoncesDistinct;
    forall n | n in c.tracked ensures c.tracked[n].key in c.rows && c.rows[c.tracked[n].key] == c.tracked[n] {
      assert InStore(c.rows, c.tracked[n], Persisted(c.tracked[n], InStep, map[]));
    }
    forall k | k in c.rows ensures Holds(c.tracked, c.rows[k]) {
      assert Located(c.mode, c.tracked, None, k, c.rows[k]);
      assert c.rows[c.tracked[c.rows[k].nonce].key] == c.tracked[c.rows[k].nonce];
    }
  }

  /** When restore is done, the account has recovered exactly its live rows. */
  lemma RestoreIsExact(cfg: Config, a: Address, steps: seq<Step>, c: Account)
    requires Run(cfg, a, steps) == Ok(c) && CanFinishBoot(c)
    ensures RecoveredFrom(c.rows, c.tracked, c.cursor)
  {
    hide Run, Inv, CanFinishBoot, NoncesDistinct, RowsOk;
    RunKeeps(cfg, a, steps);
    RestoredLane(cfg, a, c);
    RestoredTables(cfg, a, c);
    TablesGiveDistinct(cfg, a, c);
    RestoredCount(c.rows, c.tracked);
  }

  lemma RestoredLane(cfg: Config, a: Address, c: Account)
    requires Inv(cfg, a, c) && CanFinishBoot(c)
    ensures forall n | n in c.tracked :: c.cursor.Some? && n < c.cursor.value
  {
    hide TablesOk, SentOk, TurnOk, TickOk, RestoreOk, HistoryOk, CapOk;
    RestoreIsIdle(cfg, a, c);
  }

  lemma RestoredCount(rows: map<Key, TxRecord>, tracked: map<nat, TxRecord>)
    requires NoncesDistinct(rows) && forall k | k in rows :: Holds(tracked, rows[k])
    requires forall n | n in tracked :: tracked[n].nonce == n && tracked[n].key in rows && rows[tracked[n].key] == tracked[n]
    ensures |tracked| == |rows|
  {
    RowCount(rows);
    assert RowNonces(rows) == tracked.Keys;
    assert |tracked.Keys| == |tracked|;
  }

  /** Distinct nonces: as many rows as nonces. */
  lemma {:induction false} RowCount(rows: map<Key, TxRecord>)
    requires NoncesDistinct(rows)
    ensures |RowNonces(rows)| == |rows|
  {
    if rows == map[] {
      assert RowNonces(rows) == {};
    } else {
      var k :| k in rows;
      var rest := rows - {k};
      assert rows.Keys == rest.Keys + {k};
      assert |rows.Keys| == |rows| && |rest.Keys| == |rest|;
      assert forall l | l in rest :: l in rows && rest[l] == rows[l];
      RowCount(rest);
      assert RowNonces(rows) == RowNonces(rest) + {rows[k].nonce} by {
        forall n | n in RowNonces(rows) ensures n in RowNonces(rest) + {rows[k].nonce} {
          var l :| l in rows && rows[l].nonce == n;
          if l != k { assert l in rest && rest[l].nonce == n; }
        }
      }
      assert rows[k].nonce !in RowNonces(rest);
    }
  }

  // ----- store and cache -----

  /** The store and the cache hold the same records, but for the row of the open turn, which only
      the store has, and for the one write by which the tick may be ahead in the store. */
  predicate Agree(rows: map<Key, TxRecord>, tracked: map<nat, TxRecord>, pending: Option<TxRecord>, ahead: Ahead) {
    && (forall n | n in tracked && (ahead.InStep? || n != ahead.rec.nonce) ::
          tracked[n].key in rows && rows[tracked[n].key] == tracked[n])
    && (forall k | k in rows && pending != Some(rows[k]) && ahead != Updating(rows[k]) :: Holds(tracked, rows[k]))
    && (pending.Some? ==>
          pending.value.key in rows && rows[pending.value.key] == pending.value && pending.value.nonce !in tracked)
    && (ahead.Updating? ==>
          && ahead.rec.key in rows && rows[ahead.rec.key] == ahead.rec
          && ahead.rec.nonce in tracked && tracked[ahead.rec.nonce].key == ahead.rec.key)
    && (ahead.Removing? ==> ahead.rec.key !in rows && Holds(tracked, ahead.rec))
  }

  lemma TablesAgree(cfg: Config, a: Address, mode: Mode, rows: map<Key, TxRecord>, tracked: map<nat, TxRecord>,
                    pending: Option<TxRecord>, ahead: Ahead)
    requires TablesOk(cfg, a, mode, rows, tracked, pending, ahead, map[]) && mode.Up?
    requires pending.Some? ==>
      pending.value.key in rows && rows[pending.value.key] == pending.value && pending.value.nonce !in tracked
    requires !ahead.InStep? ==> ahead.rec.nonce in tracked && SameSlot(tracked[ahead.rec.nonce], ahead.rec)
    requires ahead.Removing? ==> Holds(tracked, ahead.rec)
    ensures Agree(rows, tracked, pending, ahead)
  {
    hide RowsOk, NoncesDistinct, RowOk;
    forall n | n in tracked ensures InStore(rows, tracked[n], Persisted(tracked[n], ahead, map[])) {
    }
    hide CacheInStore;
    forall k | k in rows && pending != Some(rows[k]) && ahead != Updating(rows[k]) ensures Holds(tracked, rows[k]) {
      assert Located(mode, tracked, pending, k, rows[k]);
      assert InStore(rows, tracked[rows[k].nonce], Persisted(tracked[rows[k].nonce], ahead, map[]));
    }
  }

  lemma StoreAndCacheAgree(cfg: Config, a: Address, steps: seq<Step>, c: Account)
    requires Run(cfg, a, steps) == Ok(c) && c.mode.Up?
    ensures Agree(c.rows, c.tracked, PendingRow(c.turn), StoreAhead(c.tick))
  {
    RunKeeps(cfg, a, steps);
    hide Run, Agree;
    hide TablesOk, LaneOk, SentOk, TurnOk, TickOk, RestoreOk, HistoryOk, CapOk;
    NothingResent(c.mode, c.resends, c.rows, c.tracked);
    PendingInStore(c);
    AheadTracked(cfg, c);
    TablesAgree(cfg, a, c.mode, c.rows, c.tracked, PendingRow(c.turn), StoreAhead(c.tick));
  }

  lemma PendingInStore(c: Account)
    requires TurnOk(c.mode.Up?, c.turn, c.rows, c.lives, c.tracked, Reporting(c.tick))
    requires LaneOk(c.mode, c.turn, c.cursor, c.tracked)
    ensures PendingRow(c.turn).Some? ==>
              var r := PendingRow(c.turn).value;
              r.key in c.rows && c.rows[r.key] == r && r.nonce !in c.tracked
  {
  }

  lemma AheadTracked(cfg: Config, c: Account)
    requires TickOk(cfg, c.mode.Up?, c.tick, c.tracked, c.rows, c.lives)
    ensures var ahead := StoreAhead(c.tick);
            && (!ahead.InStep? ==> ahead.rec.nonce in c.tracked && SameSlot(c.tracked[ahead.rec.nonce], ahead.rec))
            && (ahead.Removing? ==> Holds(c.tracked, ahead.rec))
  {
    hide TodoOk, UpdatePending, EndPending;
  }

  // ----- nonces -----

  /** No two live rows of an account share a nonce, across any number of crashes and restores. */
  lemma LiveNoncesAreDistinct(cfg: Config, a: Address, steps: seq<Step>, c: Account, k: Key, l: Key)
    requires Run(cfg, a, steps) == Ok(c)
    requires k in c.rows && l in c.rows && k != l
    ensures c.rows[k].nonce != c.rows[l].nonce
  {
    RunKeeps(cfg, a, steps);
    TablesGiveDistinct(cfg, a, c);
  }

  /** Outside open turns the cursor is past every live nonce; inside one, the nonce it was given
      is past every other live nonce. */
  lemma CursorDominates(cfg: Config, a: Address, steps: seq<Step>, c: Account, k: Key)
    requires Run(cfg, a, steps) == Ok(c) && c.mode.Up?
    requires k in c.rows
    ensures match TurnNonce(c.turn)
            case None => c.rows[k].nonce < NextNonce(c.cursor)
            case Some(own) => c.rows[k].nonce < own || (c.rows[k].nonce == own && (c.turn.Landed? || PendingRow(c.turn) == Some(c.rows[k])))
  {
    RunKeeps(cfg, a, steps);
    hide Run;
    hide RowsOk, NoncesDistinct, TrackedOk, CacheInStore, SentOk, TurnOk, TickOk, RestoreOk, HistoryOk, CapOk;
    assert Located(c.mode, c.tracked, PendingRow(c.turn), k, c.rows[k]);
  }

  /** The nonces the node accepts from submit strictly increase while the process lives, even when
      seeds land in the middle of a turn. */
  lemma AcceptedNoncesIncrease(cfg: Config, a: Address, steps: seq<Step>, c: Account)
    requires Run(cfg, a, steps) == Ok(c)
    ensures Increasing(c.sent)
  {
    RunKeeps(cfg, a, steps);
    hide Run, TablesOk, LaneOk, TurnOk, TickOk, RestoreOk, HistoryOk, CapOk;
  }

  // ----- backpressure -----

  /** The in-flight cap binds the rows as well as the records, also after crashes. */
  lemma BackpressureSurvivesCrashes(cfg: Config, a: Address, steps: seq<Step>, c: Account)
    requires Run(cfg, a, steps) == Ok(c) && !c.reattached
    ensures |c.rows| <= Cap(cfg)
    ensures |c.tracked| <= Cap(cfg)
  {
    RunKeeps(cfg, a, steps);
    hide Run;
    TablesGiveDistinct(cfg, a, c);
    RowCount(c.rows);
    hide TablesOk, LaneOk, SentOk, TurnOk, TickOk, RestoreOk, HistoryOk, RowNonces;
  }

  // ----- lifecycle and payloads -----

  /** Whatever receipts do, an account reports at most one mined and at most one terminal event for
      a transaction, nothing after the terminal one, and fewer replacements than maxAttempts. */
  lemma LifecycleIsOrderly(cfg: Config, a: Address, steps: seq<Step>, c: Account, k: Key)
    requires Run(cfg, a, steps) == Ok(c) && k in c.lives
    ensures var es := c.lives[k].events;
            && Count(es, EvMined) <= 1
            && Count(es, EvReplaced) <= Max(0, cfg.maxAttempts - 1)
            && (forall i, j | 0 <= i < |es| && 0 <= j < |es| && IsEnd(es[i]) && IsEnd(es[j]) :: i == j == |es| - 1)
            && (k in c.rows ==> NoEnd(es) && 1 <= c.rows[k].attempts <= Max(1, cfg.maxAttempts))
  {
    RunKeeps(cfg, a, steps);
    hide Run;
    hide LaneOk, SentOk, TurnOk, TickOk, RestoreOk, CapOk, PayloadsOk, NoncesDistinct, TrackedOk, CacheInStore, StoreInCache, Count;
    assert EventsOk(cfg, c.lives[k].events);
    if k in c.rows {
      assert RowOk(cfg, a, k, c.rows[k]) && RowLife(cfg, c.rows[k], c.lives[k]);
    }
  }

  /** Every payload signed for a transaction, and its row while it has one, is the first payload
      with fees that a chain of bumps leads to: the row's fees take one bump an attempt. */
  predicate PreservesTx(cfg: Config, rows: map<Key, TxRecord>, life: Life, k: Key) {
    && (forall i | 0 <= i < |life.signed| ::
          && SameTx(life.signed[i], life.origin)
          && InChain(cfg.oracle, life.origin.fees, Levels(cfg), life.signed[i].fees))
    && (k in rows ==>
          && SameTx(SignableOf(rows[k]), life.origin) && rows[k].attempts >= 1
          && BumpTimes(cfg.oracle, life.origin.fees, rows[k].attempts - 1) == Ok(rows[k].fees))
  }

  /** Over its whole life, through submit, replacements and rebroadcasts after crashes. */
  lemma ReplacementPreservesTx(cfg: Config, a: Address, steps: seq<Step>, c: Account, k: Key)
    requires Run(cfg, a, steps) == Ok(c) && k in c.lives
    ensures PreservesTx(cfg, c.rows, c.lives[k], k)
  {
    RunKeeps(cfg, a, steps);
    hide Run, TablesOk, LaneOk, SentOk, TurnOk, TickOk, RestoreOk, CapOk, HistoryOk, PreservesTx;
    PayloadsOfLife(cfg, c.rows, c.lives, k);
  }

  lemma PayloadsOfLife(cfg: Config, rows: map<Key, TxRecord>, lives: map<Key, Life>, k: Key)
    requires HistoryOk(cfg, rows, lives) && k in lives
    ensures PreservesTx(cfg, rows, lives[k], k)
  {
    hide EventsOk, NoEnd, InChain;
    assert PayloadsOk(cfg, lives[k].origin, lives[k].signed);
    assert k in rows ==> RowLife(cfg, rows[k], lives[k]);
    hide LivesOk, NothingLost, RowLivesOk;
  }

  lemma {:induction false} PowScales(m: nat, n: nat)
    requires m <= n
    ensures Pow(8, m) > 0 && Pow(9, m) > 0
    ensures Pow(8, n) * Pow(9, m) <= Pow(9, n) * Pow(8, m)
    decreases n
  {
    if m < n {
      PowScales(m, n - 1);
      var x, y := Pow(8, n - 1) * Pow(9, m), Pow(9, n - 1) * Pow(8, m);
      assert Pow(8, n) * Pow(9, m) == 8 * x && Pow(9, n) * Pow(8, m) == 9 * y;
    } else if m > 0 {
      PowScales(m - 1, m - 1);
    }
  }

  /** With the default legacy oracle, no payload ever signed for a transaction costs less per gas
      than the first one, nor more than (9/8)^(maxAttempts - 1) times as much. */
  lemma SignedPriceIsBounded(cfg: Config, a: Address, steps: seq<Step>, c: Account, k: Key, i: nat, min: int)
    requires Run(cfg, a, steps) == Ok(c) && k in c.lives
    requires i < |c.lives[k].signed|
    requires cfg.oracle == DefaultLegacy(min)
    requires var first := c.lives[k].origin.fees; first.Legacy? && 0 <= min <= first.gasPrice
    ensures var l := c.lives[k];
            && l.signed[i].fees.Legacy?
            && l.origin.fees.gasPrice <= l.signed[i].fees.gasPrice
            && Pow(8, Levels(cfg)) * l.signed[i].fees.gasPrice <= Pow(9, Levels(cfg)) * l.origin.fees.gasPrice
  {
    ReplacementPreservesTx(cfg, a, steps, c, k);
    var l := c.lives[k];
    var first, price := l.origin.fees.gasPrice, l.signed[i].fees;
    hide Run;
    var j: nat :| j <= Levels(cfg) && BumpTimes(cfg.oracle, l.origin.fees, j) == Ok(price);
    GeometricBounds(min, first, j);
    assert price.Legacy?;
    PowScales(j, Levels(cfg));
    ScaleUp(Pow(8, j), Pow(9, j), Pow(8, Levels(cfg)), Pow(9, Levels(cfg)), price.gasPrice, first);
  }

  lemma ScaleUp(p: nat, q: nat, P: nat, Q: nat, g: int, g0: int)
    requires p > 0 && q > 0 && g >= 0 && g0 >= 0
    requires p * g <= q * g0 && P * q <= Q * p
    ensures P * g <= Q * g0
  {
    calc {
      p * (P * g);
      P * (p * g);
    <= { MulMonotone(P, p * g, q * g0); }
      P * (q * g0);
      (P * q) * g0;
    <= { MulMonotone(g0, P * q, Q * p); }
      (Q * p) * g0;
      p * (Q * g0);
    }
    assert p * (Q * g0 + 1) == p * (Q * g0) + p;
    if P * g > Q * g0 {
      MulMonotone(p, Q * g0 + 1, P * g);
    }
  }

  // ----- outside the assumptions -----

  lemma LocatedRow(mode: Mode, rows: map<Key, TxRecord>, tracked: map<nat, TxRecord>, pending: Option<TxRecord>, k: Key)
    requires StoreInCache(mode, rows, tracked, pending) && !mode.Down? && k in rows
    ensures Located(mode, tracked, pending, k, rows[k])
  {
  }

  /** The store must take the live row once the node has the transaction: the turn keeps the
      invariant if and only if that write succeeds. */
  lemma LiveRowMustBeWritten(cfg: Config, a: Address, c: Account, now: int, written: bool)
    requires Inv(cfg, a, c) && c.turn.Accepted?
    ensures Inv(cfg, a, if written then WriteLive(c, now) else CloseFailed(c)) <==> written
  {
    if written {
      WriteLiveKeeps(cfg, a, c, now);
    } else {
      hide RowsOk, NoncesDistinct, TrackedOk, CacheInStore, LaneOk, SentOk, TickOk, RestoreOk, HistoryOk, CapOk;
      var d := CloseFailed(c);
      if StoreInCache(d.mode, d.rows, d.tracked, None) {
        LocatedRow(d.mode, d.rows, d.tracked, None, c.turn.rec.key);
        assert false;
      }
    }
  }

  /** And when it does not, the next submit writes a second live row with the same nonce exactly if
      no seed has moved the cursor past it. */
  lemma LostLiveRowReusesNonce(cfg: Config, a: Address, c: Account, sub: Submission, fees: Fees, gas: int, now: int)
    requires Inv(cfg, a, c) && c.turn.Accepted? && CanOpenTurn(CloseFailed(c), sub)
    requires CanAdmit(cfg, OpenTurn(CloseFailed(c), sub))
    ensures var d := WriteAhead(cfg, a, Admit(OpenTurn(CloseFailed(c), sub)), fees, gas, now);
            NoncesDistinct(d.rows) <==> NextNonce(c.cursor) != c.turn.rec.nonce
  {
    hide Inv, NoncesDistinct;
    var d := WriteAhead(cfg, a, Admit(OpenTurn(CloseFailed(c), sub)), fees, gas, now);
    var rec := c.turn.rec;
    AcceptedRow(cfg, a, c);
    TablesGiveDistinct(cfg, a, c);
    if NextNonce(c.cursor) != rec.nonce {
      OtherRowsBelow(cfg, a, c);
      AddsNonce(c.rows, d.turn.rec);
    } else {
      TwiceTheNonce(d.rows, rec.key, sub.key);
    }
  }

  lemma AcceptedRow(cfg: Config, a: Address, c: Account)
    requires Inv(cfg, a, c) && c.turn.Accepted?
    ensures c.turn.rec.key in c.rows && c.rows[c.turn.rec.key] == c.turn.rec
  {
    hide TablesOk, LaneOk, SentOk, TickOk, RestoreOk, HistoryOk, CapOk, Untracked;
  }

  lemma OtherRowsBelow(cfg: Config, a: Address, c: Account)
    requires Inv(cfg, a, c) && c.turn.Accepted? && NextNonce(c.cursor) != c.turn.rec.nonce
    ensures forall k | k in c.rows :: c.rows[k].nonce != NextNonce(c.cursor)
  {
    hide RowsOk, NoncesDistinct, CacheInStore, SentOk, TickOk, RestoreOk, HistoryOk, CapOk;
    forall k | k in c.rows ensures c.rows[k].nonce != NextNonce(c.cursor) {
      assert Located(c.mode, c.tracked, Some(c.turn.rec), k, c.rows[k]);
    }
  }

  lemma AddsNonce(rows: map<Key, TxRecord>, r: TxRecord)
    requires NoncesDistinct(rows) && !IsTerminal(r.status) && forall k | k in rows :: rows[k].nonce != r.nonce
    ensures NoncesDistinct(Upsert(rows, r))
  {
  }

  lemma TwiceTheNonce(rows: map<Key, TxRecord>, k: Key, l: Key)
    requires k in rows && l in rows && k != l && rows[k].nonce == rows[l].nonce
    ensures !NoncesDistinct(rows)
  {
  }

  /** A refused send whose row the store will not drop: the turn ends, reseeding the lane on drift. */
  function KeepIntent(c: Account, chainNonce: nat): Account
    requires c.turn.Refused?
  {
    c.(turn := Idle,
       cursor := if c.turn.drift then SeedCursor(c.cursor, Max(chainNonce, c.turn.rec.nonce + 1)) else c.cursor)
  }

  /** Such a row is tracked by nothing: the invariant is kept if and only if the row is dropped,
      whether the node reported drift or not. */
  lemma RefusedRowMustBeDropped(cfg: Config, a: Address, c: Account, error: ErrorText, now: int, chainNonce: nat, written: bool)
    requires Inv(cfg, a, c) && c.turn.Refused?
    ensures Inv(cfg, a, if written then DropIntent(c, error, now) else KeepIntent(c, chainNonce)) <==> written
  {
    if written {
      DropIntentKeeps(cfg, a, c, error, now);
    } else {
      hide RowsOk, NoncesDistinct, TrackedOk, CacheInStore, LaneOk, SentOk, TickOk, RestoreOk, HistoryOk, CapOk;
      var d := KeepIntent(c, chainNonce);
      if StoreInCache(d.mode, d.rows, d.tracked, None) {
        LocatedRow(d.mode, d.rows, d.tracked, None, c.turn.rec.key);
        assert false;
      }
    }
  }

  // ----- a reattach inside an open turn -----

  /** The stages a turn still has before it. */
  function StagesLeft(turn: Turn): nat {
    match turn
    case Allocated(_, _) => 6
    case Admitted(_, _) => 5
    case Intended(_) => 4
    case Refused(_, _) => 3
    case Accepted(_, _) => 3
    case Stored(_) => 2
    case Reseeding(_) => 1
    case Landed(_) => 1
    case Idle => 0
  }

  /** The answers that take a turn from any stage to its end. */
  datatype Rest = Rest(fees: Fees, gas: int, hash: Hash, now: int, error: ErrorText, chainNonce: nat)

  predicate MaySucceed(turn: Turn) {
    !turn.Idle? && !turn.Refused? && !turn.Reseeding?
  }

  /** The turn goes on to its end and succeeds. */
  function Succeed(cfg: Config, a: Address, c: Account, rest: Rest): Account
    requires MaySucceed(c.turn)
    decreases StagesLeft(c.turn)
  {
    match c.turn
    case Allocated(_, _) => Succeed(cfg, a, Admit(c), rest)
    case Admitted(_, _) => Succeed(cfg, a, WriteAhead(cfg, a, c, rest.fees, rest.gas, rest.now), rest)
    case Intended(_) => Succeed(cfg, a, SendAccepted(c, rest.hash), rest)
    case Accepted(_, _) => Succeed(cfg, a, WriteLive(c, rest.now), rest)
    case Stored(_) => Succeed(cfg, a, Land(c), rest)
    case Landed(_) => CloseTurn(c)
  }

  predicate MayFail(turn: Turn) {
    turn.Allocated? || turn.Admitted? || turn.Intended? || turn.Refused? || turn.Reseeding?
  }

  /** The turn goes on to its end and throws. */
  function Fail(c: Account, drift: bool, rest: Rest): Account
    requires MayFail(c.turn)
    decreases StagesLeft(c.turn)
  {
    match c.turn
    case Allocated(_, _) => CloseFailed(c)
    case Admitted(_, _) => CloseFailed(c)
    case Intended(_) => Fail(SendRefused(c, drift), drift, rest)
    case Refused(_, _) =>
      var d := DropIntent(c, rest.error, rest.now);
      if d.turn.Idle? then d else Fail(d, drift, rest)
    case Reseeding(_) => Reseed(c, rest.chainNonce)
  }

  lemma {:induction false} SuccessEnds(cfg: Config, a: Address, c: Account, rest: Rest)
    requires MaySucceed(c.turn)
    ensures var d := Succeed(cfg, a, c, rest);
            && d.mode == c.mode && d.turn.Idle? && d.cursor == Some(TurnNonce(c.turn).value + 1)
            && (c.turn.Landed? ==> d.tracked == c.tracked)
    decreases StagesLeft(c.turn)
  {
    hide Upsert, Sign, Accept;
    match c.turn
    case Allocated(_, _) => SuccessEnds(cfg, a, Admit(c), rest);
    case Admitted(_, _) => SuccessEnds(cfg, a, WriteAhead(cfg, a, c, rest.fees, rest.gas, rest.now), rest);
    case Intended(_) => SuccessEnds(cfg, a, SendAccepted(c, rest.hash), rest);
    case Accepted(_, _) => SuccessEnds(cfg, a, WriteLive(c, rest.now), rest);
    case Stored(_) => SuccessEnds(cfg, a, Land(c), rest);
    case Landed(_) =>
  }

  lemma {:induction false} FailureEnds(c: Account, drift: bool, rest: Rest)
    requires MayFail(c.turn)
    ensures var d := Fail(c, drift, rest);
            && d.mode == c.mode && d.turn.Idle? && d.tracked == c.tracked
            && NextNonce(d.cursor) >= NextNonce(c.cursor) && (c.cursor.Some? ==> d.cursor.Some?)
    decreases StagesLeft(c.turn)
  {
    match c.turn
    case Intended(_) => FailureEnds(SendRefused(c, drift), drift, rest);
    case Refused(_, _) =>
      var d := DropIntent(c, rest.error, rest.now);
      if !d.turn.Idle? { FailureEnds(d, drift, rest); }
    case _ =>
  }

  /** A transaction reattached while a turn is open, at whatever stage: if the turn then succeeds, the
      cursor dominates it exactly if its nonce is at most the turn's, and the cache keeps it exactly if
      its nonce is not the turn's own; if the turn fails, both are well. */
  lemma ReattachNeedsIdleLane(cfg: Config, a: Address, c: Account, r: TxRecord, rest: Rest, drift: bool)
    requires LaneOk(c.mode, c.turn, c.cursor, c.tracked) && !c.turn.Idle? && c.mode.Up?
    requires IsPlaceholder(cfg, a, r) && r.nonce !in c.tracked
    ensures MaySucceed(c.turn) ==>
              var d, own := Succeed(cfg, a, Reattach(c, r), rest), TurnNonce(c.turn).value;
              && (LaneOk(d.mode, d.turn, d.cursor, d.tracked) <==> r.nonce <= own)
              && (r.nonce != own ==> Holds(d.tracked, r))
              && (r.nonce == own && !c.turn.Landed? ==> r.nonce in d.tracked && d.tracked[own].key == OpenKey(c.turn))
    ensures MayFail(c.turn) ==>
              var d := Fail(Reattach(c, r), drift, rest);
              LaneOk(d.mode, d.turn, d.cursor, d.tracked) && Holds(d.tracked, r)
  {
    var e := Reattach(c, r);
    if MaySucceed(c.turn) {
      SuccessEnds(cfg, a, e, rest);
      if !e.turn.Landed? { SuccessTracks(cfg, a, e, rest); }
      var d := Succeed(cfg, a, e, rest);
      assert r.nonce in d.tracked;
    }
    if MayFail(c.turn) {
      FailureEnds(e, drift, rest);
    }
  }

  function OpenKey(turn: Turn): Key
    requires !turn.Idle?
  {
    if turn.Allocated? || turn.Admitted? then turn.sub.key else turn.rec.key
  }

  /** A turn that succeeds tracks its own transaction, over whatever had its nonce. */
  lemma {:induction false} SuccessTracks(cfg: Config, a: Address, c: Account, rest: Rest)
    requires MaySucceed(c.turn) && !c.turn.Landed?
    ensures var d, own := Succeed(cfg, a, c, rest), TurnNonce(c.turn).value;
            own in d.tracked && d.tracked[own].key == OpenKey(c.turn) && d.tracked == c.tracked[own := d.tracked[own]]
    decreases StagesLeft(c.turn)
  {
    hide Upsert, Sign, Accept;
    match c.turn
    case Allocated(_, _) => SuccessTracks(cfg, a, Admit(c), rest);
    case Admitted(_, _) => SuccessTracks(cfg, a, WriteAhead(cfg, a, c, rest.fees, rest.gas, rest.now), rest);
    case Intended(_) => SuccessTracks(cfg, a, SendAccepted(c, rest.hash), rest);
    case Accepted(_, _) => SuccessTracks(cfg, a, WriteLive(c, rest.now), rest);
    case Stored(_) =>
  }
}
