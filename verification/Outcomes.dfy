/** What whole operations of a managed account come to (src/account/managed-account.ts): a submit as
    all or nothing, and the reports of a tick event by event instead of branch by branch. */
module Outcomes {
  import opened Records
  import opened FeeOracles
  import opened Cursors
  import opened AccountProtocol
  import opened AccountScripts
  import opened AccountSteps

  // ----- scripts and runs -----

  lemma PerformAppend(cfg: Config, a: Address, c: Account, steps: seq<Step>, s: Step)
    ensures Perform(cfg, a, c, steps + [s]) ==
              match Perform(cfg, a, c, steps)
              case Err => Err
              case Ok(d) => if Enabled(cfg, a, d, s) then Ok(Next(cfg, a, d, s)) else Err
    decreases |steps|
  {
    hide Enabled, Next;
    if steps == [] {
      assert [s][1..] == [];
    } else if Enabled(cfg, a, c, steps[0]) {
      PerformAppend(cfg, a, Next(cfg, a, c, steps[0]), steps[1..], s);
      assert (steps + [s])[1..] == steps[1..] + [s];
    }
  }

  /** A run followed by a script is the script performed where the run ended. */
  lemma {:induction false} RunThenPerform(cfg: Config, a: Address, before: seq<Step>, c: Account, script: seq<Step>)
    requires Run(cfg, a, before) == Ok(c)
    ensures Run(cfg, a, before + script) == Perform(cfg, a, c, script)
    decreases |script|
  {
    hide Enabled, Next;
    if script == [] {
      assert before + script == before;
    } else {
      var n := |script| - 1;
      RunThenPerform(cfg, a, before, c, script[..n]);
      PerformAppend(cfg, a, c, script[..n], script[n]);
      assert script[..n] + [script[n]] == script;
      assert (before + script)[..|before + script| - 1] == before + script[..n];
    }
  }

  // ----- submit -----

  /** The record of an accepted submit. */
  function SentRecord(cfg: Config, a: Address, c: Account, req: Request, ans: SubmitAnswers): TxRecord
    requires Priced(cfg, req, ans) && ans.send.Sent?
  {
    TxRecord(req.sub.key, cfg.ownerId, cfg.chainId, a, NextNonce(c.cursor), req.sub.to, req.sub.data, req.sub.value,
             GasFor(req, ans).value, Price(cfg.oracle, ans.baseFee).value, ans.send.hash, Broadcast, 1, ans.at, false,
             req.sub.orderingKey, req.sub.metadata, None, Some(true), ans.liveAt)
  }

  /** What a submit leaves behind: the broadcast row, stored and tracked under the lane's nonce, and
      the lane one further; or else the same rows, the same in-flight set, and the same lane unless
      the node reported drift. */
  predicate AllOrNothing(cfg: Config, a: Address, c: Account, req: Request, ans: SubmitAnswers, d: Account) {
    var nonce := NextNonce(c.cursor);
    && d.turn.Idle? && d.tick == c.tick && d.mode == c.mode
    && if Admits(cfg, c, req, ans) && ans.send.Sent? then
         var live := SentRecord(cfg, a, c, req, ans);
         d.rows == c.rows[req.sub.key := live] && d.tracked == c.tracked[nonce := live] && d.cursor == Some(nonce + 1)
       else
         && d.rows == c.rows && d.tracked == c.tracked
         && d.cursor == if Admits(cfg, c, req, ans) && ans.send.DriftError? then SeedCursor(c.cursor, Max(ans.chainNonce, nonce + 1))
                        else c.cursor
  }

  lemma PerformOne(cfg: Config, a: Address, c: Account, s: Step, rest: seq<Step>)
    requires Enabled(cfg, a, c, s)
    ensures Perform(cfg, a, c, [s] + rest) == Perform(cfg, a, Next(cfg, a, c, s), rest)
  {
    hide Enabled, Next;
    assert ([s] + rest)[0] == s && ([s] + rest)[1..] == rest;
  }

  lemma PerformNone(cfg: Config, a: Address, c: Account, s: Step)
    requires Enabled(cfg, a, c, s)
    ensures Perform(cfg, a, c, [s]) == Ok(Next(cfg, a, c, s))
  {
    hide Enabled, Next;
    assert [s] == [s] + [];
    PerformOne(cfg, a, c, s, []);
  }

  /** The node takes the transaction. */
  lemma AcceptedOutcome(cfg: Config, a: Address, c: Account, ans: SubmitAnswers)
    requires c.turn.Intended? && ans.send.Sent?
    ensures Perform(cfg, a, c, OutcomeScript(ans)) == Ok(CloseTurn(Land(WriteLive(SendAccepted(c, ans.send.hash), ans.liveAt))))
  {
    hide Perform, TickEnabled, TickNext, BootEnabled, BootNext, KeyFree, Upsert, Sign, Accept;
    var sent, wrote := Submitting(SendOk(ans.send.hash)), Submitting(WroteLive(ans.liveAt));
    var landed, closed := Submitting(TrackedLive), Submitting(ClosedTurn);
    assert OutcomeScript(ans) == [sent] + ([wrote] + ([landed] + [closed]));
    var c1 := SendAccepted(c, ans.send.hash);
    var c2 := WriteLive(c1, ans.liveAt);
    PerformOne(cfg, a, c, sent, [wrote] + ([landed] + [closed]));
    PerformOne(cfg, a, c1, wrote, [landed] + [closed]);
    PerformOne(cfg, a, c2, landed, [closed]);
    PerformNone(cfg, a, Land(c2), closed);
  }

  /** The node refuses it. */
  lemma RefusedOutcome(cfg: Config, a: Address, c: Account, ans: SubmitAnswers)
    requires c.turn.Intended? && !ans.send.Sent?
    ensures var dropped := DropIntent(SendRefused(c, ans.send.DriftError?), ans.error, ans.droppedAt);
            Perform(cfg, a, c, OutcomeScript(ans)) == Ok(if ans.send.DriftError? then Reseed(dropped, ans.chainNonce) else dropped)
  {
    hide Perform, TickEnabled, TickNext, BootEnabled, BootNext, KeyFree, Upsert, Sign, Accept;
    var refused := Submitting(SendBad(ans.send.DriftError?));
    var dropped, reseeded := Submitting(DroppedIntent(ans.error, ans.droppedAt)), Submitting(Reseeded(ans.chainNonce));
    var c1 := SendRefused(c, ans.send.DriftError?);
    if ans.send.DriftError? {
      assert OutcomeScript(ans) == [refused] + ([dropped] + [reseeded]);
      PerformOne(cfg, a, c, refused, [dropped] + [reseeded]);
      PerformOne(cfg, a, c1, dropped, [reseeded]);
      PerformNone(cfg, a, DropIntent(c1, ans.error, ans.droppedAt), reseeded);
    } else {
      assert OutcomeScript(ans) == [refused] + [dropped];
      PerformOne(cfg, a, c, refused, [dropped]);
      PerformNone(cfg, a, c1, dropped);
    }
  }

  /** The steps up to the send of an admitted submit. */
  function Intend(cfg: Config, a: Address, c: Account, req: Request, ans: SubmitAnswers): Account
    requires Priced(cfg, req, ans)
  {
    WriteAhead(cfg, a, Admit(OpenTurn(c, req.sub)), Price(cfg.oracle, ans.baseFee).value, GasFor(req, ans).value, ans.at)
  }

  lemma AdmittedSubmit(cfg: Config, a: Address, c: Account, req: Request, ans: SubmitAnswers)
    requires CanOpenTurn(c, req.sub) && Admits(cfg, c, req, ans)
    ensures Perform(cfg, a, c, SubmitScript(cfg, c, req, ans)) == Perform(cfg, a, Intend(cfg, a, c, req, ans), OutcomeScript(ans))
  {
    hide Perform, TickEnabled, TickNext, BootEnabled, BootNext, KeyFree, Upsert, Price, GasFor, OutcomeScript;
    var taken, below := Submitting(OpenedTurn(req.sub)), Submitting(BelowCap);
    var ahead := Submitting(WroteAhead(Price(cfg.oracle, ans.baseFee).value, GasFor(req, ans).value, ans.at));
    assert SubmitScript(cfg, c, req, ans) == [taken] + ([below] + ([ahead] + OutcomeScript(ans)));
    PerformOne(cfg, a, c, taken, [below] + ([ahead] + OutcomeScript(ans)));
    PerformOne(cfg, a, OpenTurn(c, req.sub), below, [ahead] + OutcomeScript(ans));
    PerformOne(cfg, a, Admit(OpenTurn(c, req.sub)), ahead, OutcomeScript(ans));
  }

  lemma RejectedSubmit(cfg: Config, a: Address, c: Account, req: Request, ans: SubmitAnswers)
    requires CanOpenTurn(c, req.sub) && !Admits(cfg, c, req, ans)
    ensures Perform(cfg, a, c, SubmitScript(cfg, c, req, ans)) == Ok(CloseFailed(c))
  {
    hide Perform, TickEnabled, TickNext, BootEnabled, BootNext, KeyFree, Priced;
    var taken, below := Submitting(OpenedTurn(req.sub)), Submitting(BelowCap);
    var capped, gaveUp := Submitting(CapReached), Submitting(GaveUp);
    var c1 := OpenTurn(c, req.sub);
    if |c.tracked| >= cfg.maxInflight {
      assert SubmitScript(cfg, c, req, ans) == [taken] + [capped];
      PerformOne(cfg, a, c, taken, [capped]);
      PerformNone(cfg, a, c1, capped);
    } else {
      assert SubmitScript(cfg, c, req, ans) == [taken] + ([below] + [gaveUp]);
      PerformOne(cfg, a, c, taken, [below] + [gaveUp]);
      PerformOne(cfg, a, c1, below, [gaveUp]);
      PerformNone(cfg, a, Admit(c1), gaveUp);
    }
  }

  lemma WrittenTwice(rows: map<Key, TxRecord>, r: TxRecord, s: TxRecord)
    requires r.key == s.key && !IsTerminal(r.status)
    ensures !IsTerminal(s.status) ==> Upsert(Upsert(rows, r), s) == rows[s.key := s]
    ensures IsTerminal(s.status) && r.key !in rows ==> Upsert(Upsert(rows, r), s) == rows
  {
  }

  lemma AcceptedIsAll(cfg: Config, a: Address, c: Account, req: Request, ans: SubmitAnswers)
    requires CanOpenTurn(c, req.sub) && Admits(cfg, c, req, ans) && ans.send.Sent?
    ensures var intended := Intend(cfg, a, c, req, ans);
            AllOrNothing(cfg, a, c, req, ans, CloseTurn(Land(WriteLive(SendAccepted(intended, ans.send.hash), ans.liveAt))))
  {
    hide Price, GasFor, KeyFree, Sign, Accept, Upsert;
    WrittenTwice(c.rows, Intend(cfg, a, c, req, ans).turn.rec, SentRecord(cfg, a, c, req, ans));
  }

  lemma RefusedIsNothing(cfg: Config, a: Address, c: Account, req: Request, ans: SubmitAnswers)
    requires CanOpenTurn(c, req.sub) && Admits(cfg, c, req, ans) && !ans.send.Sent?
    ensures var intended := Intend(cfg, a, c, req, ans);
            var dropped := DropIntent(SendRefused(intended, ans.send.DriftError?), ans.error, ans.droppedAt);
            AllOrNothing(cfg, a, c, req, ans, if ans.send.DriftError? then Reseed(dropped, ans.chainNonce) else dropped)
  {
    hide Price, GasFor, Sign, Accept, SentRecord, Upsert;
    var rec := Intend(cfg, a, c, req, ans).turn.rec;
    WrittenTwice(c.rows, rec, TerminalRecord(rec, Failed, Some(ans.error), ans.droppedAt));
  }

  lemma RejectedIsNothing(cfg: Config, a: Address, c: Account, req: Request, ans: SubmitAnswers)
    requires CanOpenTurn(c, req.sub) && !Admits(cfg, c, req, ans)
    ensures AllOrNothing(cfg, a, c, req, ans, CloseFailed(c))
  {
    hide Price, GasFor, KeyFree, Admits, SentRecord;
  }

  /** A submit is all or nothing: whatever the oracle, the store and the node answer, it ends, and it
      has either stored and tracked the broadcast transaction or changed nothing but the lane. */
  lemma SubmitIsAllOrNothing(cfg: Config, a: Address, c: Account, req: Request, ans: SubmitAnswers)
    requires CanOpenTurn(c, req.sub)
    ensures Perform(cfg, a, c, SubmitScript(cfg, c, req, ans)).Ok?
    ensures AllOrNothing(cfg, a, c, req, ans, Perform(cfg, a, c, SubmitScript(cfg, c, req, ans)).value)
  {
    hide Perform, SubmitScript, OutcomeScript, Price, GasFor, AllOrNothing, CanOpenTurn,
         SendAccepted, SendRefused, WriteLive, Land, CloseTurn, DropIntent, Reseed;
    if Admits(cfg, c, req, ans) {
      AdmittedSubmit(cfg, a, c, req, ans);
      if ans.send.Sent? {
        AcceptedOutcome(cfg, a, Intend(cfg, a, c, req, ans), ans);
        AcceptedIsAll(cfg, a, c, req, ans);
      } else {
        RefusedOutcome(cfg, a, Intend(cfg, a, c, req, ans), ans);
        RefusedIsNothing(cfg, a, c, req, ans);
      }
    } else {
      RejectedSubmit(cfg, a, c, req, ans);
      RejectedIsNothing(cfg, a, c, req, ans);
    }
  }

  // ----- the tick -----

  lemma TickOne(cfg: Config, a: Address, c: Account, x: TickStep, xs: seq<TickStep>, rest: seq<Step>)
    requires TickEnabled(cfg, c, x)
    ensures Perform(cfg, a, c, Ticks([x] + xs) + rest) == Perform(cfg, a, TickNext(cfg, c, x), Ticks(xs) + rest)
  {
    hide TickEnabled, TickNext;
    assert Ticks([x] + xs) + rest == [Ticking(x)] + (Ticks(xs) + rest);
    PerformOne(cfg, a, c, Ticking(x), Ticks(xs) + rest);
  }

  /** From a persisted update to its event. */
  lemma UpdateRuns(cfg: Config, a: Address, c: Account, rest: seq<Step>) returns (d: Account)
    requires c.tick.Saved?
    ensures Perform(cfg, a, c, Ticks([CachedUpdate, NotifiedUpdate]) + rest) == Perform(cfg, a, d, rest)
    ensures d.tick == Scanning(c.tick.todo)
  {
    hide Perform, Ticks, Emit, IsListing;
    assert [CachedUpdate, NotifiedUpdate] == [CachedUpdate] + ([NotifiedUpdate] + []);
    TickOne(cfg, a, c, CachedUpdate, [NotifiedUpdate], rest);
    var c1 := CacheUpdate(c);
    assert [NotifiedUpdate] == [NotifiedUpdate] + [];
    TickOne(cfg, a, c1, NotifiedUpdate, [], rest);
    d := NotifyUpdate(c1);
    TicksOfNothing(rest);
  }

  lemma TicksOfNothing(rest: seq<Step>)
    ensures Ticks([]) + rest == rest
  {
    assert Ticks([]) == [];
  }

  lemma SettleRuns(cfg: Config, a: Address, c: Account, status: Status, error: Option<ErrorText>, now: int, rest: seq<Step>)
    returns (d: Account)
    requires CanSettle(cfg, c, status)
    ensures Perform(cfg, a, c, Ticks([WroteTerminal(status, error, now), DroppedTx, NotifiedEnd]) + rest) == Perform(cfg, a, d, rest)
    ensures d.tick == Scanning(c.tick.todo[1..])
  {
    hide Perform, Ticks, Emit, MarkSettled, Upsert, IsListing;
    var x := WroteTerminal(status, error, now);
    assert [x, DroppedTx, NotifiedEnd] == [x] + [DroppedTx, NotifiedEnd];
    TickOne(cfg, a, c, x, [DroppedTx, NotifiedEnd], rest);
    var c1 := TickNext(cfg, c, x);
    assert [DroppedTx, NotifiedEnd] == [DroppedTx] + [NotifiedEnd];
    TickOne(cfg, a, c1, DroppedTx, [NotifiedEnd], rest);
    var c2 := TickNext(cfg, c1, DroppedTx);
    assert [NotifiedEnd] == [NotifiedEnd] + [];
    TickOne(cfg, a, c2, NotifiedEnd, [], rest);
    d := TickNext(cfg, c2, NotifiedEnd);
    TicksOfNothing(rest);
  }

  lemma ReplaceRuns(cfg: Config, a: Address, c: Account, hash: Hash, now: int, stored: bool, rest: seq<Step>) returns (d: Account)
    requires CanReplace(cfg, c)
    ensures var steps := [ResentOk(hash)] + if stored then [WroteReplaced(now), CachedUpdate, NotifiedUpdate] else [LostReplaced];
            Perform(cfg, a, c, Ticks(steps) + rest) == Perform(cfg, a, d, rest)
    ensures d.tick == Scanning(c.tick.todo[1..])
  {
    hide Perform, Ticks, Emit, Accept, Sign, Upsert, IsListing, Bump;
    var c1 := TickNext(cfg, c, ResentOk(hash));
    if stored {
      assert [WroteReplaced(now), CachedUpdate, NotifiedUpdate] == [WroteReplaced(now)] + [CachedUpdate, NotifiedUpdate];
      TickOne(cfg, a, c, ResentOk(hash), [WroteReplaced(now), CachedUpdate, NotifiedUpdate], rest);
      TickOne(cfg, a, c1, WroteReplaced(now), [CachedUpdate, NotifiedUpdate], rest);
      d := UpdateRuns(cfg, a, TickNext(cfg, c1, WroteReplaced(now)), rest);
    } else {
      assert [LostReplaced] == [LostReplaced] + [];
      TickOne(cfg, a, c, ResentOk(hash), [LostReplaced], rest);
      TickOne(cfg, a, c1, LostReplaced, [], rest);
      d := TickNext(cfg, c1, LostReplaced);
      TicksOfNothing(rest);
    }
  }

  lemma MinedRuns(cfg: Config, a: Address, c: Account, now: int, rest: seq<Step>) returns (d: Account)
    requires CanMarkMined(c)
    ensures Perform(cfg, a, c, Ticks([WroteMined(now), CachedUpdate, NotifiedUpdate]) + rest) == Perform(cfg, a, d, rest)
    ensures d.tick == Scanning(c.tick.todo[1..])
  {
    hide Perform, Ticks, Upsert, IsListing;
    assert [WroteMined(now), CachedUpdate, NotifiedUpdate] == [WroteMined(now)] + [CachedUpdate, NotifiedUpdate];
    TickOne(cfg, a, c, WroteMined(now), [CachedUpdate, NotifiedUpdate], rest);
    d := UpdateRuns(cfg, a, MarkMined(c, now), rest);
  }

  lemma SingleRuns(cfg: Config, a: Address, c: Account, x: TickStep, rest: seq<Step>) returns (d: Account)
    requires (x.Skipped? && HasNext(c)) || (x.ResentBad? && CanReplace(cfg, c))
    ensures Perform(cfg, a, c, Ticks([x]) + rest) == Perform(cfg, a, d, rest)
    ensures d.tick == Scanning(c.tick.todo[1..])
  {
    hide Perform, Ticks, Sign, IsListing;
    assert [x] == [x] + [];
    TickOne(cfg, a, c, x, [], rest);
    d := TickNext(cfg, c, x);
    TicksOfNothing(rest);
  }

  /** The steps of a visit are always possible and lead to the next record. */
  lemma VisitRuns(cfg: Config, a: Address, policy: Policy, c: Account, head: Option<int>, ans: Answers, rest: seq<Step>)
    returns (d: Account)
    requires HasNext(c)
    ensures Perform(cfg, a, c, Ticks(Visit(cfg, policy, c.tick.todo[0], head, ans).steps) + rest) == Perform(cfg, a, d, rest)
    ensures d.tick == Scanning(c.tick.todo[1..])
  {
    hide Perform, Ticks, Bump;
    var steps := Visit(cfg, policy, c.tick.todo[0], head, ans).steps;
    if steps[0].Skipped? || steps[0].ResentBad? {
      d := SingleRuns(cfg, a, c, steps[0], rest);
    } else if steps[0].WroteTerminal? {
      d := SettleRuns(cfg, a, c, steps[0].status, steps[0].error, steps[0].now, rest);
    } else if steps[0].WroteMined? {
      d := MinedRuns(cfg, a, c, steps[0].now, rest);
    } else {
      d := ReplaceRuns(cfg, a, c, steps[0].hash, ans.now, ans.stored, rest);
      assert steps == [steps[0]] + if ans.stored then [WroteReplaced(ans.now), CachedUpdate, NotifiedUpdate] else [LostReplaced];
    }
  }

  lemma {:induction false} PassRuns(cfg: Config, a: Address, policy: Policy, c: Account, head: Option<int>,
                                    answers: nat -> Answers, rest: seq<Step>) returns (d: Account)
    requires c.tick.Scanning?
    ensures Perform(cfg, a, c, Ticks(VisitAll(cfg, policy, c.tick.todo, head, answers).steps) + rest) == Perform(cfg, a, d, rest)
    ensures d.tick == Scanning([])
    decreases |c.tick.todo|
  {
    hide Perform, Visit;
    var todo := c.tick.todo;
    if todo == [] {
      TicksOfNothing(rest);
      d := c;
    } else {
      var first := Visit(cfg, policy, todo[0], head, answers(todo[0].nonce));
      var others := VisitAll(cfg, policy, todo[1..], first.head, answers);
      TicksConcat(first.steps, others.steps);
      assert Ticks(first.steps + others.steps) + rest == Ticks(first.steps) + (Ticks(others.steps) + rest);
      var e := VisitRuns(cfg, a, policy, c, head, answers(todo[0].nonce), Ticks(others.steps) + rest);
      d := PassRuns(cfg, a, policy, e, first.head, answers, rest);
    }
  }

  /** A tick always runs to its end, whatever the node, the clock and the store answer. */
  lemma TickRuns(cfg: Config, a: Address, policy: Policy, c: Account, list: seq<TxRecord>, answers: nat -> Answers)
    requires CanTickBegin(c, list)
    ensures Perform(cfg, a, c, Ticks(TickScript(cfg, policy, list, answers))).Ok?
    ensures Perform(cfg, a, c, Ticks(TickScript(cfg, policy, list, answers))).value.tick.Asleep?
  {
    hide Perform, Ticks, VisitAll, IsListing;
    var visits, none := VisitAll(cfg, policy, list, None, answers).steps, [];
    TicksOfNothing(none);
    if list == [] {
      assert Ticks([]) == [];
      PerformNothing(cfg, a, c);
    } else {
      TicksConcat(visits, [EndedTick]);
      assert [BeganTick(list)] + visits + [EndedTick] == [BeganTick(list)] + (visits + [EndedTick]);
      assert Ticks(TickScript(cfg, policy, list, answers)) + none == Ticks(TickScript(cfg, policy, list, answers));
      TickOne(cfg, a, c, BeganTick(list), visits + [EndedTick], none);
      assert Ticks(visits) + Ticks([EndedTick]) + none == Ticks(visits) + (Ticks([EndedTick] + []) + none) by {
        assert [EndedTick] + [] == [EndedTick];
      }
      var d := PassRuns(cfg, a, policy, TickBegin(c, list), None, answers, Ticks([EndedTick] + []) + none);
      TickOne(cfg, a, d, EndedTick, [], none);
      PerformNothing(cfg, a, TickEnd(d));
    }
  }

  lemma PerformNothing(cfg: Config, a: Address, c: Account)
    ensures Perform(cfg, a, c, []) == Ok(c)
  {
  }

  /** The transaction is in a block and did not revert. */
  predicate Included(ans: Answers) {
    ans.receipt.Ok? && ans.receipt.value.Some? && !ans.receipt.value.value.reverted
  }

  /** The node answers that it has no receipt, for too long. */
  predicate SilentTooLong(policy: Policy, r: TxRecord, ans: Answers) {
    ans.receipt == Ok(None) && ans.now - r.submittedAt >= policy.stuckAfterMs && r.canReplace != Some(false)
  }

  function Depth(head: int, ans: Answers): int
    requires Included(ans)
  {
    head - ans.receipt.value.value.blockNumber + 1
  }

  /** The chain head as the tick knows it when it decides about record j: the first one it could read
      for an included transaction. */
  function HeadAt(head: Option<int>, todo: seq<TxRecord>, answers: nat -> Answers, j: nat): Option<int>
    requires j < |todo|
    decreases j
  {
    var ans := answers(todo[0].nonce);
    var known := if head.None? && Included(ans) && ans.head.Ok? then Some(ans.head.value) else head;
    if j == 0 then known else HeadAt(known, todo[1..], answers, j - 1)
  }

  /** When an event of a record is due. */
  predicate Due(cfg: Config, policy: Policy, r: TxRecord, head: Option<int>, ans: Answers, e: Event) {
    && ans.stored
    && match e
       case EvConfirmed => Included(ans) && head.Some? && Depth(head.value, ans) >= policy.confirmations
       case EvMined => Included(ans) && head.Some? && Depth(head.value, ans) < policy.confirmations && !r.minedEmitted
       case EvReverted => ans.receipt.Ok? && ans.receipt.value.Some? && ans.receipt.value.value.reverted
       case EvFailed => SilentTooLong(policy, r, ans) && r.attempts >= cfg.maxAttempts
       case EvReplaced =>
         SilentTooLong(policy, r, ans) && r.attempts < cfg.maxAttempts && ans.send.Sent? && Bump(cfg.oracle, r.fees).Ok?
       case EvBroadcast => false
  }

  ghost predicate Reported(notices: seq<Notice>, k: Key, e: Event) {
    exists i :: 0 <= i < |notices| && notices[i].key == k && notices[i].event == e
  }

  predicate DistinctKeys(todo: seq<TxRecord>) {
    forall i, j | 0 <= i < j < |todo| :: todo[i].key != todo[j].key
  }

  lemma VisitReports(cfg: Config, policy: Policy, r: TxRecord, head: Option<int>, ans: Answers, e: Event)
    ensures var plan := Visit(cfg, policy, r, head, ans);
            && |plan.notices| <= 1
            && (plan.notices != [] ==> plan.notices[0].key == r.key)
            && (Reported(plan.notices, r.key, e) <==> Due(cfg, policy, r, plan.head, ans, e))
            && plan.head == HeadAt(head, [r], (n: nat) => ans, 0)
  {
    hide Bump;
    var notices := Visit(cfg, policy, r, head, ans).notices;
    if notices != [] {
      assert Reported(notices, r.key, e) <==> notices[0].event == e;
    }
  }

  lemma ReportedEither(s: seq<Notice>, t: seq<Notice>, k: Key, e: Event)
    ensures Reported(s + t, k, e) <==> Reported(s, k, e) || Reported(t, k, e)
  {
    if Reported(s, k, e) {
      var i :| 0 <= i < |s| && s[i].key == k && s[i].event == e;
      assert (s + t)[i] == s[i];
    }
    if Reported(t, k, e) {
      var i :| 0 <= i < |t| && t[i].key == k && t[i].event == e;
      assert (s + t)[|s| + i] == t[i];
    }
  }

  /** A pass reports nothing about keys it does not visit. */
  lemma {:induction false} OnlyVisited(cfg: Config, policy: Policy, todo: seq<TxRecord>, head: Option<int>, answers: nat -> Answers, k: Key)
    requires forall i | 0 <= i < |todo| :: todo[i].key != k
    ensures forall x | x in VisitAll(cfg, policy, todo, head, answers).notices :: x.key != k
    decreases |todo|
  {
    hide Visit;
    if todo != [] {
      var first := Visit(cfg, policy, todo[0], head, answers(todo[0].nonce));
      VisitReports(cfg, policy, todo[0], head, answers(todo[0].nonce), EvMined);
      OnlyVisited(cfg, policy, todo[1..], first.head, answers, k);
    }
  }

  /** A pass reports an event of a record if and only if it is due by the head it has come to know. */
  lemma {:induction false} ReportsByHead(cfg: Config, policy: Policy, todo: seq<TxRecord>, head: Option<int>,
                                         answers: nat -> Answers, j: nat, e: Event)
    requires j < |todo| && DistinctKeys(todo)
    ensures Reported(VisitAll(cfg, policy, todo, head, answers).notices, todo[j].key, e)
            <==> Due(cfg, policy, todo[j], HeadAt(head, todo, answers, j), answers(todo[j].nonce), e)
    decreases |todo|
  {
    hide Visit, Due, Reported;
    var ans := answers(todo[0].nonce);
    var first := Visit(cfg, policy, todo[0], head, ans);
    var rest := VisitAll(cfg, policy, todo[1..], first.head, answers);
    VisitReports(cfg, policy, todo[0], head, ans, e);
    ReportedEither(first.notices, rest.notices, todo[j].key, e);
    if j == 0 {
      OnlyVisited(cfg, policy, todo[1..], first.head, answers, todo[0].key);
      NotReported(rest.notices, todo[0].key, e);
    } else {
      ReportsByHead(cfg, policy, todo[1..], first.head, answers, j - 1, e);
      NotReported(first.notices, todo[j].key, e);
    }
  }

  /** Record i could give the tick its head: it is included and the head could be read. */
  predicate Readable(todo: seq<TxRecord>, answers: nat -> Answers, i: nat)
    requires i < |todo|
  {
    Included(answers(todo[i].nonce)) && answers(todo[i].nonce).head.Ok?
  }

  /** The head of a tick at record j: the answer at the first readable record up to j, if there is one. */
  ghost predicate KnownHead(todo: seq<TxRecord>, answers: nat -> Answers, j: nat, h: Option<int>)
    requires j < |todo|
  {
    match h
    case None => forall i | 0 <= i <= j :: !Readable(todo, answers, i)
    case Some(top) =>
      exists m: nat | m <= j ::
        && Readable(todo, answers, m) && answers(todo[m].nonce).head.value == top
        && forall i | 0 <= i < m :: !Readable(todo, answers, i)
  }

  lemma {:induction false} HeadExists(todo: seq<TxRecord>, answers: nat -> Answers, j: nat) returns (h: Option<int>)
    requires j < |todo|
    ensures KnownHead(todo, answers, j, h)
    decreases j
  {
    h := None;
    if j > 0 { h := HeadExists(todo, answers, j - 1); }
    if h.None? && Readable(todo, answers, j) {
      h := Some(answers(todo[j].nonce).head.value);
    }
  }

  lemma {:induction false} KnownStays(todo: seq<TxRecord>, answers: nat -> Answers, top: int, j: nat)
    requires j < |todo|
    ensures HeadAt(Some(top), todo, answers, j) == Some(top)
    decreases j
  {
    if j > 0 { KnownStays(todo[1..], answers, top, j - 1); }
  }

  lemma {:induction false} HeadIsKnown(todo: seq<TxRecord>, answers: nat -> Answers, j: nat, h: Option<int>)
    requires j < |todo| && KnownHead(todo, answers, j, h)
    ensures HeadAt(None, todo, answers, j) == h
    decreases j
  {
    if Readable(todo, answers, 0) {
      if j > 0 { KnownStays(todo[1..], answers, answers(todo[0].nonce).head.value, j - 1); }
    } else if j > 0 {
      forall i: nat | i < j ensures Readable(todo[1..], answers, i) <==> Readable(todo, answers, i + 1) {
      }
      if h.Some? {
        var m: nat :| m <= j && Readable(todo, answers, m) && answers(todo[m].nonce).head.value == h.value
                      && forall i | 0 <= i < m :: !Readable(todo, answers, i);
        assert Readable(todo[1..], answers, m - 1);
      }
      HeadIsKnown(todo[1..], answers, j - 1, h);
    }
  }

  /** A tick reports an event of a record if and only if it is due; the depth of every transaction is
      measured against one head, the first the tick could read. */
  lemma ReportsWhatIsDue(cfg: Config, policy: Policy, todo: seq<TxRecord>, answers: nat -> Answers, j: nat, h: Option<int>, e: Event)
    requires j < |todo| && DistinctKeys(todo) && KnownHead(todo, answers, j, h)
    ensures Reported(VisitAll(cfg, policy, todo, None, answers).notices, todo[j].key, e)
            <==> Due(cfg, policy, todo[j], h, answers(todo[j].nonce), e)
  {
    hide VisitAll, Due, Reported, KnownHead, HeadAt;
    ReportsByHead(cfg, policy, todo, None, answers, j, e);
    HeadIsKnown(todo, answers, j, h);
  }

  lemma NotReported(notices: seq<Notice>, k: Key, e: Event)
    requires forall i | 0 <= i < |notices| :: notices[i].key != k
    ensures !Reported(notices, k, e)
  {
  }

  lemma {:induction false} ReportedRecord(cfg: Config, policy: Policy, todo: seq<TxRecord>, head: Option<int>,
                                          answers: nat -> Answers, i: nat) returns (m: nat)
    requires i < |VisitAll(cfg, policy, todo, head, answers).notices|
    ensures m < |todo| && VisitAll(cfg, policy, todo, head, answers).notices[i].key == todo[m].key
    decreases |todo|
  {
    hide Visit;
    var first := Visit(cfg, policy, todo[0], head, answers(todo[0].nonce));
    VisitReports(cfg, policy, todo[0], head, answers(todo[0].nonce), EvMined);
    if i < |first.notices| {
      m := 0;
    } else {
      var n := ReportedRecord(cfg, policy, todo[1..], first.head, answers, i - |first.notices|);
      m := n + 1;
    }
  }

  /** A tick reports at most one event of each record, and events in the order of its visits. */
  lemma {:induction false} OneReportEach(cfg: Config, policy: Policy, todo: seq<TxRecord>, head: Option<int>,
                                         answers: nat -> Answers, i: nat, j: nat) returns (m: nat, n: nat)
    requires i < j < |VisitAll(cfg, policy, todo, head, answers).notices|
    ensures m < n < |todo|
    ensures var notices := VisitAll(cfg, policy, todo, head, answers).notices;
            notices[i].key == todo[m].key && notices[j].key == todo[n].key
    decreases |todo|
  {
    hide Visit;
    var first := Visit(cfg, policy, todo[0], head, answers(todo[0].nonce));
    VisitReports(cfg, policy, todo[0], head, answers(todo[0].nonce), EvMined);
    var seen := |first.notices|;
    if i < seen {
      var k := ReportedRecord(cfg, policy, todo[1..], first.head, answers, j - seen);
      m, n := 0, k + 1;
    } else {
      var k, l := OneReportEach(cfg, policy, todo[1..], first.head, answers, i - seen, j - seen);
      m, n := k + 1, l + 1;
    }
  }
}
