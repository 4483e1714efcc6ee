/** Which hash an account watches for a transaction (src/account/managed-account.ts): the node returned
    it, unless a rebroadcast met drift and left the row without one. */
module AccountHashes {
  import opened Records
  import opened AccountProtocol
  import opened AccountInvariant
  import opened AccountWrites
  import opened AccountSteps
  import opened AccountScripts
  import opened Outcomes
  import opened AccountHistory
  import opened PoolProtocol
  import opened PoolViews

  /** What a run says of the present life of a key: the hashes the node returned for its payloads (or
      the caller gave to reattach), and whether the last mark was a rebroadcast that met drift. */
  datatype Trail = Trail(hashes: set<Hash>, drifted: bool)

  function TrailNext(c: Account, s: Step, k: Key, t: Trail): Trail {
    match s
    case Submitting(WroteAhead(_, _, _)) => if c.turn.Admitted? && c.turn.sub.key == k then Trail({}, false) else t
    case Submitting(SendOk(hash)) => if c.turn.Intended? && c.turn.rec.key == k then t.(hashes := t.hashes + {hash}) else t
    case Submitting(WroteLive(_)) => if c.turn.Accepted? && c.turn.rec.key == k then t.(drifted := false) else t
    case Ticking(ResentOk(hash)) => if HasNext(c) && c.tick.todo[0].key == k then t.(hashes := t.hashes + {hash}) else t
    case Ticking(WroteReplaced(_)) => if c.tick.Resent? && c.tick.rec.key == k then t.(drifted := false) else t
    case Recovering(RebroadcastOk(n, hash, _)) =>
      if n in c.tracked && c.tracked[n].key == k then Trail(t.hashes + {hash}, false) else t
    case Recovering(RebroadcastDrift(n, _)) => if n in c.tracked && c.tracked[n].key == k then t.(drifted := true) else t
    case Recovering(LostRebroadcast(n, retry, _)) =>
      if retry && n in c.tracked && c.tracked[n].key == k then t.(drifted := true) else t
    case Recovering(Reattached(r)) => if r.key == k then Trail({r.hash}, false) else t
    case _ => t
  }

  function TrailOf(cfg: Config, a: Address, steps: seq<Step>, k: Key): Trail {
    if steps == [] then Trail({}, false)
    else
      var t := TrailOf(cfg, a, steps[..|steps| - 1], k);
      match Run(cfg, a, steps[..|steps| - 1])
      case Err => t
      case Ok(c) => TrailNext(c, steps[|steps| - 1], k, t)
  }

  /** The hash of a row: none before the node has answered, later one the node returned, or none if the
      rebroadcast that marked the row met drift. */
  predicate HashOk(r: TxRecord, t: Trail) {
    && (r.status.Pending? ==> r.hash == ZERO_HASH)
    && (r.hash == ZERO_HASH || r.hash in t.hashes)
    && (r.status.Broadcast? ==> if t.drifted then r.hash == ZERO_HASH else r.hash in t.hashes)
  }

  predicate RowHash(rows: map<Key, TxRecord>, k: Key, t: Trail) {
    k in rows ==> HashOk(rows[k], t)
  }

  /** The hashes on their way into the row. */
  predicate HandHash(turn: Turn, tick: Tick, k: Key, t: Trail) {
    && (turn.Accepted? && turn.rec.key == k ==> turn.hash in t.hashes)
    && (tick.Resent? && tick.rec.key == k ==> tick.hash in t.hashes)
  }

  predicate ResendHash(c: Account, k: Key, t: Trail) {
    forall n | n in c.resends ::
      && n in c.tracked && c.tracked[n].status.Pending?
      && (c.resends[n].Saving? && c.tracked[n].key == k ==> HashOk(c.resends[n].rec, t))
  }

  predicate HashInv(c: Account, k: Key, t: Trail) {
    RowHash(c.rows, k, t) && HandHash(c.turn, c.tick, k, t) && ResendHash(c, k, t)
  }

  // ----- submit -----

  lemma SubmitHash(cfg: Config, a: Address, c: Account, s: SubmitStep, k: Key, t: Trail)
    requires SubmitEnabled(cfg, c, s) && HashInv(c, k, t) && c.resends == map[]
    requires c.tick.Resent? && c.turn.Admitted? ==> c.tick.rec.key != c.turn.sub.key
    ensures HashInv(SubmitNext(cfg, a, c, s), k, TrailNext(c, Submitting(s), k, t))
  {
    hide KeyFree, Sign, Accept;
  }

  // ----- the tick -----

  lemma TickHash(cfg: Config, a: Address, c: Account, s: TickStep, k: Key, t: Trail)
    requires TickEnabled(cfg, c, s) && HashInv(c, k, t) && c.resends == map[]
    requires HasNext(c) ==> c.tick.todo[0].key in c.rows && c.rows[c.tick.todo[0].key] == c.tick.todo[0]
    ensures HashInv(TickNext(cfg, c, s), k, TrailNext(c, Ticking(s), k, t))
  {
    hide IsListing, Sign, Accept, Emit, MarkSettled;
  }

  // ----- crash and restore -----

  /** Every record under resend is tracked, the pending row of its key until the mark is written. */
  predicate ResendsAreRows(c: Account) {
    forall n | n in c.resends ::
      && n in c.tracked && c.tracked[n].key in c.rows && c.rows[c.tracked[n].key].nonce == n
      && (!c.resends[n].Sending? ==> IsLive(c.tracked[n], c.resends[n].rec))
      && (!c.resends[n].Caching? ==> c.rows[c.tracked[n].key] == c.tracked[n])
  }

  lemma ResentRow(cfg: Config, a: Address, c: Account, n: nat)
    requires Inv(cfg, a, c) && n in c.resends
    ensures n in c.tracked && c.tracked[n].key in c.rows && c.rows[c.tracked[n].key].nonce == n
    ensures !c.resends[n].Sending? ==> IsLive(c.tracked[n], c.resends[n].rec)
    ensures !c.resends[n].Caching? ==> c.rows[c.tracked[n].key] == c.tracked[n]
  {
    hide TablesOk, LaneOk, SentOk, TurnOk, TickOk, HistoryOk, CapOk, BootOk;
    BootingFromResend(c, n);
    RestoreIsIdle(cfg, a, c);
    TrackedIsRow(cfg, a, c, n);
  }

  lemma ResentRows(cfg: Config, a: Address, c: Account)
    requires Inv(cfg, a, c)
    ensures ResendsAreRows(c)
  {
    hide Inv, IsLive;
    forall n | n in c.resends
      ensures n in c.tracked && c.tracked[n].key in c.rows && c.rows[c.tracked[n].key].nonce == n
      ensures !c.resends[n].Sending? ==> IsLive(c.tracked[n], c.resends[n].rec)
      ensures !c.resends[n].Caching? ==> c.rows[c.tracked[n].key] == c.tracked[n]
    {
      ResentRow(cfg, a, c, n);
    }
  }

  predicate IsResend(s: BootStep) {
    s.RebroadcastOk? || s.RebroadcastDrift? || s.RebroadcastBad? || s.WroteRebroadcast? || s.LostRebroadcast? || s.CachedRebroadcast?
  }

  lemma SendHash(cfg: Config, a: Address, c: Account, s: BootStep, k: Key, t: Trail)
    requires BootEnabled(cfg, a, c, s) && IsRebroadcast(s) && HashInv(c, k, t) && ResendsAreRows(c)
    requires c.turn.Idle? && c.tick.Asleep?
    ensures HashInv(BootNext(cfg, a, c, s), k, TrailNext(c, Recovering(s), k, t))
  {
    hide Sign, Accept;
  }

  lemma MarkHash(cfg: Config, a: Address, c: Account, s: BootStep, k: Key, t: Trail)
    requires BootEnabled(cfg, a, c, s) && IsResend(s) && !IsRebroadcast(s) && HashInv(c, k, t) && ResendsAreRows(c)
    requires c.turn.Idle? && c.tick.Asleep?
    ensures HashInv(BootNext(cfg, a, c, s), k, TrailNext(c, Recovering(s), k, t))
  {
  }

  lemma RestoreHash(cfg: Config, a: Address, c: Account, s: BootStep, k: Key, t: Trail)
    requires BootEnabled(cfg, a, c, s) && !IsResend(s) && HashInv(c, k, t)
    requires s.RestoredBinding? ==> Holds(c.tracked, c.mode.current.rec)
    requires s.RestoredTx? ==> c.mode.todo[s.key].nonce !in c.resends
    requires c.mode.Up? ==> c.resends == map[]
    requires s.Reattached? && c.tick.Resent? ==> c.tick.rec.key != s.rec.key
    ensures HashInv(BootNext(cfg, a, c, s), k, TrailNext(c, Recovering(s), k, t))
  {
    hide KeyFree;
  }

  // ----- all steps -----

  lemma ResentHasKey(cfg: Config, a: Address, c: Account)
    requires Inv(cfg, a, c) && c.tick.Resent?
    ensures c.tick.rec.nonce in c.tracked && c.tracked[c.tick.rec.nonce].key == c.tick.rec.key
    ensures c.turn.Admitted? ==> c.turn.sub.key != c.tick.rec.key
  {
    hide TablesOk, LaneOk, SentOk, RestoreOk, HistoryOk, CapOk, TodoOk;
  }

  lemma NoResends(cfg: Config, a: Address, c: Account)
    requires Inv(cfg, a, c)
    ensures c.mode.Up? || !c.turn.Idle? || !c.tick.Asleep? ==> c.resends == map[]
  {
    hide TablesOk, LaneOk, SentOk, HistoryOk, CapOk;
    forall n ensures n in c.resends ==> c.mode.Booting? && c.turn.Idle? && c.tick.Asleep? {
      if n in c.resends {
        BootingFromResend(c, n);
        RestoreIsIdle(cfg, a, c);
      }
    }
  }

  lemma BootFacts(cfg: Config, a: Address, c: Account, s: BootStep)
    requires Inv(cfg, a, c) && BootEnabled(cfg, a, c, s)
    ensures s.RestoredBinding? ==> Holds(c.tracked, c.mode.current.rec)
    ensures s.RestoredTx? ==> c.mode.todo[s.key].nonce !in c.resends
    ensures s.Reattached? && c.tick.Resent? ==> c.tick.rec.key != s.rec.key
    ensures IsResend(s) ==> c.turn.Idle? && c.tick.Asleep?
  {
    hide TablesOk, LaneOk, SentOk, TurnOk, TickOk, HistoryOk, CapOk, RestoreOk, IsPlaceholder;
    if s.RestoredBinding? { SeededNotResent(c); }
    if s.RestoredTx? { TodoRow(cfg, a, c, s.key); }
    if c.tick.Resent? { ResentHasKey(cfg, a, c); }
    NoResends(cfg, a, c);
  }

  lemma StepHash(cfg: Config, a: Address, c: Account, s: Step, k: Key, t: Trail)
    requires Inv(cfg, a, c) && Enabled(cfg, a, c, s) && HashInv(c, k, t)
    ensures HashInv(Next(cfg, a, c, s), k, TrailNext(c, s, k, t))
  {
    hide Inv, HashInv, TrailNext, SubmitNext, TickNext, BootNext, SubmitEnabled, TickEnabled, BootEnabled, RowLife, RowOk, TodoOk;
    NoResends(cfg, a, c);
    match s
    case Submitting(x) =>
      if c.tick.Resent? { ResentHasKey(cfg, a, c); }
      SubmitOpens(cfg, c, x);
      SubmitHash(cfg, a, c, x, k, t);
    case Ticking(x) =>
      if HasNext(c) { NextIsRow(cfg, a, c); }
      TickOpens(cfg, a, c, x);
      TickHash(cfg, a, c, x, k, t);
    case Recovering(x) =>
      BootFacts(cfg, a, c, x);
      ResentRows(cfg, a, c);
      if IsRebroadcast(x) {
        SendHash(cfg, a, c, x, k, t);
      } else if IsResend(x) {
        MarkHash(cfg, a, c, x, k, t);
      } else {
        RestoreHash(cfg, a, c, x, k, t);
      }
  }

  lemma SubmitOpens(cfg: Config, c: Account, s: SubmitStep)
    requires SubmitEnabled(cfg, c, s)
    ensures c.turn.Idle? ==> c.mode.Up?
  {
    hide KeyFree;
  }

  lemma TickOpens(cfg: Config, a: Address, c: Account, s: TickStep)
    requires TickEnabled(cfg, c, s)
    ensures c.tick.Asleep? ==> c.mode.Up?
  {
    hide IsListing;
  }

  lemma {:induction false} RunHash(cfg: Config, a: Address, steps: seq<Step>, c: Account, k: Key)
    requires Run(cfg, a, steps) == Ok(c)
    ensures HashInv(c, k, TrailOf(cfg, a, steps, k))
    decreases |steps|
  {
    hide Inv, Enabled, Next, TrailNext, RowHash, HandHash;
    if steps == [] {
      NothingYet(k);
    } else {
      var before, s := steps[..|steps| - 1], steps[|steps| - 1];
      var b := Run(cfg, a, before).value;
      RunHash(cfg, a, before, b, k);
      RunKeeps(cfg, a, before);
      StepHash(cfg, a, b, s, k, TrailOf(cfg, a, before, k));
    }
  }

  lemma NothingYet(k: Key)
    ensures HashInv(NewAccount, k, Trail({}, false))
  {
  }

  /** In every run the hash of a live row is one that the node returned for a payload of the row's own
      key, or that was given to reattach, or none at all; and a broadcast row has none exactly if the
      rebroadcast that marked it met drift, provided that no real hash is the empty one. */
  lemma WatchedHashIsOwn(cfg: Config, a: Address, steps: seq<Step>, c: Account, k: Key)
    requires Run(cfg, a, steps) == Ok(c) && k in c.rows
    ensures var r, t := c.rows[k], TrailOf(cfg, a, steps, k);
            && (r.hash == ZERO_HASH || r.hash in t.hashes)
            && (r.status.Pending? ==> r.hash == ZERO_HASH)
            && (r.status.Broadcast? && !t.drifted ==> r.hash in t.hashes)
            && (r.status.Broadcast? && ZERO_HASH !in t.hashes ==> (r.hash == ZERO_HASH <==> t.drifted))
  {
    hide Run, TrailOf;
    RunHash(cfg, a, steps, c, k);
  }

  // ----- a run that loses the hash -----

  /** From a sent transaction, whose hash no row has yet, over a crash to the end of restore's visit to
      its row. */
  lemma RestoresIntent(cfg: Config, a: Address, c: Account, hash: Hash) returns (d: Account)
    requires c.turn.Intended? && c.rows == map[c.turn.rec.key := c.turn.rec] && c.turn.rec.status.Pending? && c.turn.rec.key in c.lives
    ensures Perform(cfg, a, Crash(SendAccepted(c, hash)),
                    [Recovering(Booted), Recovering(RestoredTx(c.turn.rec.key)), Recovering(RestoredSeed),
                     Recovering(RestoredBinding)]) == Ok(d)
    ensures d.rows == c.rows && d.tracked == map[c.turn.rec.nonce := c.turn.rec] && d.resends == map[c.turn.rec.nonce := Sending]
    ensures c.turn.rec.key in d.lives && d.lives[c.turn.rec.key].accepted
  {
    hide Perform, SubmitEnabled, SubmitNext, TickEnabled, TickNext;
    var k := c.turn.rec.key;
    var s := [Recovering(Booted), Recovering(RestoredTx(k)), Recovering(RestoredSeed), Recovering(RestoredBinding)];
    var c0 := Crash(SendAccepted(c, hash));
    var c1 := Boot(c0);
    var c2 := RestoreTrack(c1, k);
    var c3 := RestoreSeed(c2);
    d := RestoreBound(c3);
    PerformNone(cfg, a, c3, s[3]);
    PerformOne(cfg, a, c2, s[2], [s[3]]);
    PerformOne(cfg, a, c1, s[1], [s[2]] + [s[3]]);
    PerformOne(cfg, a, c0, s[0], [s[1]] + ([s[2]] + [s[3]]));
    assert s == [s[0]] + ([s[1]] + ([s[2]] + [s[3]]));
  }

  /** The process dies between the answer of the node and the live row, and the resend at restore is
      answered with drift: the accepted transaction is live without a hash. */
  lemma HashCanBeLost(cfg: Config, a: Address, sub: Submission, fees: Fees, gas: int, hash: Hash, now: int)
      returns (steps: seq<Step>, c: Account)
    requires cfg.maxInflight > 0
    ensures Run(cfg, a, steps) == Ok(c) && sub.key in c.rows && sub.key in c.lives
    ensures c.lives[sub.key].accepted && c.rows[sub.key].status.Broadcast? && c.rows[sub.key].hash == ZERO_HASH
  {
    hide Run, Perform, Enabled, Next, SendAccepted;
    var k, intended := sub.key, FirstIntent(cfg, a, sub, fees, gas, now);
    var sent := SendAccepted(intended, hash);
    var ahead, send, crash := FirstSteps(sub, fees, gas, hash, now)[..5], Submitting(SendOk(hash)), Recovering(Crashed);
    var restore := [Recovering(Booted), Recovering(RestoredTx(k)), Recovering(RestoredSeed), Recovering(RestoredBinding)];
    var drift, wrote := Recovering(RebroadcastDrift(0, now)), Recovering(WroteRebroadcast(0));
    var d := RestoresIntent(cfg, a, intended, hash);
    var marked := RebroadcastDrifted(d, 0, now);
    c := SaveRebroadcast(marked, 0);
    MarksDrift(cfg, a, d, marked, now);
    PerformNone(cfg, a, marked, wrote);
    PerformOne(cfg, a, d, drift, [wrote]);
    var tail := [drift] + [wrote];
    PerformOver(cfg, a, Crash(sent), restore, d, tail);
    CrashAfterSend(cfg, a, intended, hash);
    PerformOne(cfg, a, sent, crash, restore + tail);
    PerformOne(cfg, a, intended, send, [crash] + (restore + tail));
    var rest := [send] + ([crash] + (restore + tail));
    IntendsFirst(cfg, a, sub, fees, gas, hash, now, rest);
    steps := ahead + rest;
    RunOfNothing(cfg, a);
    RunThenPerform(cfg, a, [], NewAccount, steps);
    assert [] + steps == steps;
  }

  lemma CrashAfterSend(cfg: Config, a: Address, c: Account, hash: Hash)
    requires c.turn.Intended?
    ensures Enabled(cfg, a, c, Submitting(SendOk(hash))) && Next(cfg, a, c, Submitting(SendOk(hash))) == SendAccepted(c, hash)
    ensures Enabled(cfg, a, SendAccepted(c, hash), Recovering(Crashed))
    ensures Next(cfg, a, SendAccepted(c, hash), Recovering(Crashed)) == Crash(SendAccepted(c, hash))
  {
    hide SendAccepted, TickEnabled, TickNext;
  }

  lemma MarksDrift(cfg: Config, a: Address, c: Account, d: Account, now: int)
    requires CanRebroadcast(c, 0) && d == RebroadcastDrifted(c, 0, now)
    ensures Enabled(cfg, a, c, Recovering(RebroadcastDrift(0, now))) && Next(cfg, a, c, Recovering(RebroadcastDrift(0, now))) == d
    ensures Enabled(cfg, a, d, Recovering(WroteRebroadcast(0))) && Next(cfg, a, d, Recovering(WroteRebroadcast(0))) == SaveRebroadcast(d, 0)
  {
    hide TickEnabled, TickNext, SubmitEnabled, SubmitNext;
  }

  lemma {:induction false} PerformOver(cfg: Config, a: Address, c: Account, first: seq<Step>, d: Account, more: seq<Step>)
    requires Perform(cfg, a, c, first) == Ok(d)
    ensures Perform(cfg, a, c, first + more) == Perform(cfg, a, d, more)
    decreases |first|
  {
    hide Enabled, Next;
    if first == [] {
      assert first + more == more;
    } else {
      PerformOver(cfg, a, Next(cfg, a, c, first[0]), first[1..], d, more);
      assert (first + more)[1..] == first[1..] + more;
    }
  }
}
