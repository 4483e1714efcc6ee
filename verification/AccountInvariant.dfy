/** What every step of a managed account keeps.

    The invariant is a conjunction of groups of clauses, each group over just the fields it speaks
    of; the lemma of a step hides the groups whose fields the step leaves alone. */
module AccountInvariant {
  import opened Records
  import opened FeeOracles
  import opened AccountProtocol

  // ----- tables: the rows in the store and the records in the cache -----

  predicate RowOk(cfg: Config, a: Address, k: Key, r: TxRecord) {
    && r.key == k && r.account == a && r.ownerId == cfg.ownerId && r.chainId == cfg.chainId
    && !IsTerminal(r.status)
    && 1 <= r.attempts && (r.attempts == 1 || r.attempts <= cfg.maxAttempts)
  }

  predicate RowsOk(cfg: Config, a: Address, rows: map<Key, TxRecord>) {
    forall k | k in rows :: RowOk(cfg, a, k, rows[k])
  }

  /** No two live rows share a nonce. */
  predicate NoncesDistinct(rows: map<Key, TxRecord>) {
    forall k, l | k in rows && l in rows && k != l :: rows[k].nonce != rows[l].nonce
  }

  predicate TrackedOk(cfg: Config, a: Address, tracked: map<nat, TxRecord>) {
    forall n | n in tracked :: tracked[n].nonce == n && RowOk(cfg, a, tracked[n].key, tracked[n])
  }

  /** The tick's store write that the cache has not seen yet. */
  datatype Ahead = InStep | Updating(rec: TxRecord) | Removing(rec: TxRecord)

  function StoreAhead(tick: Tick): Ahead {
    match tick
    case Saved(rec, _, _) => Updating(rec)
    case Settling(rec, _, _) => Removing(rec)
    case _ => InStep
  }

  /** What the store holds for a tracked record. */
  function Persisted(r: TxRecord, ahead: Ahead, resends: map<nat, Resend>): Option<TxRecord> {
    if ahead.Removing? && ahead.rec.nonce == r.nonce then None
    else if ahead.Updating? && ahead.rec.nonce == r.nonce then Some(ahead.rec)
    else if r.nonce in resends && resends[r.nonce].Caching? then Some(resends[r.nonce].rec)
    else Some(r)
  }

  /** Same key, same nonce, same stream. */
  predicate SameSlot(r: TxRecord, t: TxRecord) {
    r.key == t.key && r.nonce == t.nonce && r.orderingKey == t.orderingKey
  }

  predicate InStore(rows: map<Key, TxRecord>, r: TxRecord, persisted: Option<TxRecord>) {
    match persisted
    case None => r.key !in rows
    case Some(p) => SameSlot(p, r) && p.key in rows && rows[p.key] == p
  }

  predicate CacheInStore(rows: map<Key, TxRecord>, tracked: map<nat, TxRecord>, ahead: Ahead, resends: map<nat, Resend>) {
    forall n | n in tracked :: InStore(rows, tracked[n], Persisted(tracked[n], ahead, resends))
  }

  /** The row of the open turn, until it is tracked. */
  function PendingRow(turn: Turn): Option<TxRecord> {
    match turn
    case Intended(rec) => Some(rec)
    case Refused(rec, _) => Some(rec)
    case Accepted(rec, _) => Some(rec)
    case Stored(rec) => Some(rec)
    case _ => None
  }

  predicate Located(mode: Mode, tracked: map<nat, TxRecord>, pending: Option<TxRecord>, k: Key, r: TxRecord) {
    || (r.nonce in tracked && tracked[r.nonce].key == k)
    || pending == Some(r)
    || (mode.Booting? && k in mode.todo)
  }

  predicate StoreInCache(mode: Mode, rows: map<Key, TxRecord>, tracked: map<nat, TxRecord>, pending: Option<TxRecord>) {
    !mode.Down? ==> forall k | k in rows :: Located(mode, tracked, pending, k, rows[k])
  }

  predicate TablesOk(cfg: Config, a: Address, mode: Mode, rows: map<Key, TxRecord>, tracked: map<nat, TxRecord>,
                     pending: Option<TxRecord>, ahead: Ahead, resends: map<nat, Resend>)
  {
    && RowsOk(cfg, a, rows) && NoncesDistinct(rows) && TrackedOk(cfg, a, tracked)
    && CacheInStore(rows, tracked, ahead, resends) && StoreInCache(mode, rows, tracked, pending)
  }

  // ----- the lane and its open turn -----

  function TurnNonce(turn: Turn): Option<nat> {
    match turn
    case Idle => None
    case Allocated(_, n) => Some(n)
    case Admitted(_, n) => Some(n)
    case _ => Some(turn.rec.nonce)
  }

  predicate TurnHasSent(turn: Turn) {
    turn.Accepted? || turn.Stored? || turn.Landed?
  }

  /** The record that restore has put in the cache and not yet seeded the lane for. */
  predicate BeingSeeded(mode: Mode, n: nat) {
    mode.Booting? && mode.current.Tracking? && mode.current.rec.nonce == n
  }

  /** The cursor dominates every tracked nonce once no turn is open; an open turn's nonce does
      while it lasts. */
  predicate LaneOk(mode: Mode, turn: Turn, cursor: Option<nat>, tracked: map<nat, TxRecord>) {
    match TurnNonce(turn)
    case None =>
      forall n | n in tracked :: (cursor.Some? && n < cursor.value) || BeingSeeded(mode, n)
    case Some(own) =>
      && (if cursor.Some? then own <= cursor.value else own == 0)
      && (forall n | n in tracked :: n < own || (n == own && turn.Landed?))
  }

  predicate Increasing(s: seq<nat>) {
    forall i, j | 0 <= i < j < |s| :: s[i] < s[j]
  }

  /** Nonces the node accepted from submit, since the process started, strictly increase. */
  predicate SentOk(sent: seq<nat>, turn: Turn, cursor: Option<nat>) {
    && Increasing(sent)
    && (sent != [] ==>
          var last := sent[|sent| - 1];
          match TurnNonce(turn)
          case None => cursor.Some? && last < cursor.value
          case Some(own) => last < own || (last == own && TurnHasSent(turn)))
  }

  /** The key of the transaction the tick is about to report as settled. */
  function Reporting(tick: Tick): Option<Key> {
    if tick.Dropped? then Some(tick.rec.key) else None
  }

  predicate Untracked(tracked: map<nat, TxRecord>, reporting: Option<Key>, k: Key) {
    (forall n | n in tracked :: tracked[n].key != k) && reporting != Some(k)
  }

  predicate OwnRow(rows: map<Key, TxRecord>, lives: map<Key, Life>, rec: TxRecord) {
    rec.key in rows && rows[rec.key] == rec && rec.key in lives
  }

  predicate TurnOk(up: bool, turn: Turn, rows: map<Key, TxRecord>, lives: map<Key, Life>,
                   tracked: map<nat, TxRecord>, reporting: Option<Key>)
  {
    && (!turn.Idle? ==> up)
    && match turn
       case Allocated(sub, _) => sub.key !in rows && Untracked(tracked, reporting, sub.key)
       case Admitted(sub, _) => sub.key !in rows && Untracked(tracked, reporting, sub.key)
       case Intended(rec) => OwnRow(rows, lives, rec) && !lives[rec.key].accepted && Untracked(tracked, reporting, rec.key)
       case Refused(rec, _) => OwnRow(rows, lives, rec) && !lives[rec.key].accepted && Untracked(tracked, reporting, rec.key)
       case Accepted(rec, _) => OwnRow(rows, lives, rec) && Untracked(tracked, reporting, rec.key)
       case Stored(rec) => OwnRow(rows, lives, rec) && Untracked(tracked, reporting, rec.key)
       case _ => true
  }

  // ----- the tick -----

  /** What is left of a snapshot is still what the cache holds, and not the record in hand. */
  predicate TodoOk(tracked: map<nat, TxRecord>, todo: seq<TxRecord>, inHand: Option<nat>) {
    && (forall i | 0 <= i < |todo| :: Holds(tracked, todo[i]) && inHand != Some(todo[i].nonce))
    && (forall i, j | 0 <= i < j < |todo| :: todo[i].nonce < todo[j].nonce)
  }

  predicate Holds(tracked: map<nat, TxRecord>, r: TxRecord) {
    r.nonce in tracked && tracked[r.nonce] == r
  }

  /** The event of an update is still to be emitted. */
  predicate UpdatePending(r: TxRecord, e: Event, events: seq<Event>) {
    || (e.EvMined? && r.minedEmitted && Count(events, EvMined) == 0)
    || (e.EvReplaced? && Count(events, EvReplaced) <= r.attempts - 2)
  }

  /** The event of a settled transaction is still to be emitted. */
  predicate EndPending(rows: map<Key, TxRecord>, lives: map<Key, Life>, k: Key, e: Event) {
    IsEnd(e) && k !in rows && k in lives && lives[k].settled && NoEnd(lives[k].events)
  }

  predicate TickOk(cfg: Config, up: bool, tick: Tick, tracked: map<nat, TxRecord>,
                   rows: map<Key, TxRecord>, lives: map<Key, Life>)
  {
    && (!tick.Asleep? ==> up)
    && match tick
       case Asleep => true
       case Scanning(todo) => TodoOk(tracked, todo, None)
       case Resent(rec, fees, _, todo) =>
         && TodoOk(tracked, todo, Some(rec.nonce)) && Holds(tracked, rec)
         && rec.attempts < cfg.maxAttempts && Bump(cfg.oracle, rec.fees) == Ok(fees)
       case Saved(rec, e, todo) =>
         && TodoOk(tracked, todo, Some(rec.nonce))
         && rec.nonce in tracked && SameSlot(tracked[rec.nonce], rec)
         && rec.key in lives && UpdatePending(rec, e, lives[rec.key].events)
       case Cached(rec, e, todo) =>
         && TodoOk(tracked, todo, Some(rec.nonce)) && Holds(tracked, rec)
         && rec.key in lives && UpdatePending(rec, e, lives[rec.key].events)
       case Settling(rec, e, todo) =>
         && TodoOk(tracked, todo, Some(rec.nonce)) && Holds(tracked, rec)
         && EndPending(rows, lives, rec.key, e)
       case Dropped(rec, e, todo) =>
         && TodoOk(tracked, todo, None)
         && EndPending(rows, lives, rec.key, e)
  }

  // ----- restore -----

  /** The broadcast form of a row. */
  predicate IsLive(r: TxRecord, live: TxRecord) {
    live == LiveRecord(r, live.hash, live.updatedAt)
  }

  predicate InHand(current: Restoring, r: TxRecord) {
    !current.NoRow? && current.rec == r
  }

  predicate ResendsOk(mode: Mode, resends: map<nat, Resend>, tracked: map<nat, TxRecord>) {
    forall n | n in resends ::
      && mode.Booting?
      && n in tracked && tracked[n].key !in mode.todo
      && (!resends[n].Sending? ==> IsLive(tracked[n], resends[n].rec))
  }

  predicate BootOk(mode: Mode, rows: map<Key, TxRecord>, tracked: map<nat, TxRecord>) {
    mode.Booting? ==>
      && (forall k | k in mode.todo :: k in rows && rows[k] == mode.todo[k])
      && (forall n | n in tracked :: tracked[n].key in mode.todo ==> InHand(mode.current, tracked[n]))
      && (!mode.current.NoRow? ==>
            var rec := mode.current.rec;
            rec.key in mode.todo && mode.todo[rec.key] == rec && Holds(tracked, rec))
  }

  predicate RestoreOk(mode: Mode, resends: map<nat, Resend>, rows: map<Key, TxRecord>, tracked: map<nat, TxRecord>) {
    ResendsOk(mode, resends, tracked) && BootOk(mode, rows, tracked)
  }

  predicate DownOk(c: Account) {
    c.mode.Down? ==>
      c.tracked == map[] && c.cursor.None? && c.turn.Idle? && c.tick.Asleep? && c.resends == map[] && c.sent == []
  }

  // ----- history -----

  function Count(es: seq<Event>, e: Event): nat {
    if es == [] then 0
    else Count(es[..|es| - 1], e) + (if es[|es| - 1] == e then 1 else 0)
  }

  predicate NoEnd(es: seq<Event>) {
    forall i | 0 <= i < |es| :: !IsEnd(es[i])
  }

  /** How many replacements the attempt limit leaves. */
  function Levels(cfg: Config): nat {
    if cfg.maxAttempts > 1 then cfg.maxAttempts - 1 else 0
  }

  /** Fees reached from the first ones by at most m bumps. */
  predicate InChain(o: Oracle, first: Fees, m: nat, f: Fees) {
    exists j: nat | j <= m :: BumpTimes(o, first, j) == Ok(f)
  }

  /** At most one mined event, at most one terminal event and nothing after it, a bounded number
      of replacements. */
  predicate EventsOk(cfg: Config, es: seq<Event>) {
    && Count(es, EvMined) <= 1
    && Count(es, EvReplaced) <= Levels(cfg)
    && (forall i | 0 <= i < |es| - 1 :: !IsEnd(es[i]))
  }

  /** A payload of a life: the first one up to a chain of bumps. */
  predicate MaySign(cfg: Config, origin: SignableTx, s: SignableTx) {
    SameTx(s, origin) && InChain(cfg.oracle, origin.fees, Levels(cfg), s.fees)
  }

  predicate PayloadsOk(cfg: Config, origin: SignableTx, signed: seq<SignableTx>) {
    forall i | 0 <= i < |signed| :: MaySign(cfg, origin, signed[i])
  }

  predicate LivesOk(cfg: Config, lives: map<Key, Life>) {
    forall k | k in lives :: EventsOk(cfg, lives[k].events) && PayloadsOk(cfg, lives[k].origin, lives[k].signed)
  }

  /** Nothing the node accepted leaves the store before its terminal row is written. */
  predicate NothingLost(rows: map<Key, TxRecord>, lives: map<Key, Life>) {
    forall k | k in lives && lives[k].accepted && !lives[k].settled :: k in rows
  }

  /** The life of a row that is still there. */
  predicate RowLife(cfg: Config, r: TxRecord, l: Life) {
    && !l.settled && r.attempts >= 1
    && SameTx(SignableOf(r), l.origin)
    && BumpTimes(cfg.oracle, l.origin.fees, r.attempts - 1) == Ok(r.fees)
    && NoEnd(l.events)
    && Count(l.events, EvMined) <= (if r.minedEmitted then 1 else 0)
    && Count(l.events, EvReplaced) <= r.attempts - 1
  }

  predicate RowLivesOk(cfg: Config, rows: map<Key, TxRecord>, lives: map<Key, Life>) {
    forall k | k in rows :: k in lives && RowLife(cfg, rows[k], lives[k])
  }

  predicate HistoryOk(cfg: Config, rows: map<Key, TxRecord>, lives: map<Key, Life>) {
    LivesOk(cfg, lives) && NothingLost(rows, lives) && RowLivesOk(cfg, rows, lives)
  }

  // ----- the in-flight cap -----

  function Cap(cfg: Config): nat {
    if cfg.maxInflight > 0 then cfg.maxInflight else 0
  }

  /** The slot an admitted turn holds until its transaction is tracked. */
  function Slot(turn: Turn): nat {
    if turn.Admitted? || PendingRow(turn).Some? then 1 else 0
  }

  function RowNonces(rows: map<Key, TxRecord>): set<nat> {
    set k | k in rows :: rows[k].nonce
  }

  predicate CapOk(cfg: Config, reattached: bool, size: nat, slot: nat, rows: map<Key, TxRecord>) {
    !reattached ==> size + slot <= Cap(cfg) && |RowNonces(rows)| <= Cap(cfg)
  }

  // ----- the invariant -----

  predicate Inv(cfg: Config, a: Address, c: Account) {
    && TablesOk(cfg, a, c.mode, c.rows, c.tracked, PendingRow(c.turn), StoreAhead(c.tick), c.resends)
    && LaneOk(c.mode, c.turn, c.cursor, c.tracked)
    && SentOk(c.sent, c.turn, c.cursor)
    && TurnOk(c.mode.Up?, c.turn, c.rows, c.lives, c.tracked, Reporting(c.tick))
    && TickOk(cfg, c.mode.Up?, c.tick, c.tracked, c.rows, c.lives)
    && RestoreOk(c.mode, c.resends, c.rows, c.tracked)
    && DownOk(c)
    && HistoryOk(cfg, c.rows, c.lives)
    && CapOk(cfg, c.reattached, |c.tracked|, Slot(c.turn), c.rows)
  }
}
