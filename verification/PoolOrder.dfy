/** First come, first served: the queue of each lane, and the order it gives to a stream
    (src/pool.ts, src/cache/in-memory.cache.ts). */
module PoolOrder {
  import opened Records
  import opened AccountProtocol
  import opened AccountInvariant
  import opened AccountHistory
  import opened PoolProtocol
  import opened PoolViews
  import opened PoolInvariant
  import opened PoolSteps
  import opened PoolTheorems

  predicate Waits(tickets: map<Key, Ticket>, a: Address, k: Key) {
    k in tickets && tickets[k].account == a && tickets[k].phase.InQueue?
  }

  predicate Distinct(queue: seq<Key>) {
    forall i, j | 0 <= i < j < |queue| :: queue[i] != queue[j]
  }

  /** A lane's queue lists the submits that wait for it, each once. */
  predicate QueuesOk(queues: map<Address, seq<Key>>, tickets: map<Key, Ticket>) {
    && (forall a | a in queues :: Distinct(queues[a]))
    && (forall a, k | a in queues && k in queues[a] :: Waits(tickets, a, k))
    && (forall k | k in tickets && tickets[k].phase.InQueue? :: tickets[k].account in queues && k in queues[tickets[k].account])
  }

  /** The same submits wait for the same lanes. */
  predicate SameWaiting(tickets: map<Key, Ticket>, next: map<Key, Ticket>) {
    && (forall k | k in tickets && tickets[k].phase.InQueue? :: k in next && next[k] == tickets[k])
    && (forall k | k in next && next[k].phase.InQueue? :: k in tickets && tickets[k] == next[k])
  }

  lemma RouteQueues(queues: map<Address, seq<Key>>, tickets: map<Key, Ticket>, t: Ticket)
    requires QueuesOk(queues, tickets) && t.sub.key !in tickets && t.phase.InQueue?
    ensures QueuesOk(Join(queues, t.account, t.sub.key), tickets[t.sub.key := t])
  {
    var a, k := t.account, t.sub.key;
    var next, later := Join(queues, a, k), tickets[k := t];
    forall b | b in next ensures Distinct(next[b]) {
      if b in queues {
        assert Distinct(queues[b]) && !Waits(tickets, b, k);
        assert forall i | 0 <= i < |queues[b]| :: queues[b][i] in queues[b];
      }
    }
    forall b, x | b in next && x in next[b] ensures Waits(later, b, x) {
      assert x != k ==> b in queues && x in queues[b] && Waits(tickets, b, x);
    }
    forall x | x in later && later[x].phase.InQueue? ensures later[x].account in next && x in next[later[x].account] {
      if x == k { assert next[a][|next[a]| - 1] == k; }
    }
  }

  /** Only the turn's own ticket changes, unless a turn opens. */
  lemma EffectKeepsWaiting(tickets: map<Key, Ticket>, v: View, e: Effect)
    requires !e.EOpen?
    requires v.turn.Some? ==> v.turn.value.key in tickets && tickets[v.turn.value.key].phase.InTurn?
    ensures SameWaiting(tickets, TicketsNext(tickets, v, e))
  {
  }

  lemma OpenQueues(queues: map<Address, seq<Key>>, tickets: map<Key, Ticket>, a: Address, k: Key)
    requires QueuesOk(queues, tickets) && IsNext(queues, a, k)
    ensures k in tickets
    ensures QueuesOk(queues[a := queues[a][1..]], tickets[k := tickets[k].(phase := InTurn)])
  {
    assert k in queues[a];
    assert forall x | x in queues[a][1..] :: x in queues[a];
  }

  lemma OnlyOpensQueue(c: Account, s: Step)
    ensures EffectOf(c, s).EOpen? <==> s.Submitting? && s.s.OpenedTurn?
  {
  }

  lemma TurnOfView(cfg: Config, owned: set<Address>, foreign: map<Key, TxRecord>, p: Pool, a: Address)
    requires PoolInv(cfg, owned, foreign, p) && a in p.accts
    ensures var v := ViewOf(p.accts[a]);
            v.turn.Some? ==> v.turn.value.key in p.tickets && p.tickets[v.turn.value.key].phase.InTurn?
  {
    hide PoolInv, Slots;
    if !p.accts[a].turn.Idle? { TurnTicket(cfg, owned, foreign, p, a); }
  }

  lemma StepQueues(cfg: Config, owned: set<Address>, foreign: map<Key, TxRecord>, p: Pool, a: Address, s: Step)
    requires PoolInv(cfg, owned, foreign, p) && StepAllowed(cfg, p, a, s) && QueuesOk(p.queues, p.tickets)
    ensures var q := StepAccount(cfg, p, a, s); QueuesOk(q.queues, q.tickets)
  {
    hide PoolInv, QueuesOk, Enabled, Next, WrittenBy, TokensNext, BindsNext, ViewOf, KeyUnused;
    OnlyOpensQueue(p.accts[a], s);
    if s.Submitting? && s.s.OpenedTurn? {
      OpenQueues(p.queues, p.tickets, a, s.s.sub.key);
    } else {
      hide EffectOf, TicketsNext;
      var v, e := ViewOf(p.accts[a]), EffectOf(p.accts[a], s);
      TurnOfView(cfg, owned, foreign, p, a);
      EffectKeepsWaiting(p.tickets, v, e);
      SameQueues(p.queues, p.tickets, TicketsNext(p.tickets, v, e));
    }
  }

  lemma SameQueues(queues: map<Address, seq<Key>>, tickets: map<Key, Ticket>, next: map<Key, Ticket>)
    requires QueuesOk(queues, tickets) && SameWaiting(tickets, next)
    ensures QueuesOk(queues, next)
  {
  }

  lemma PoolStepQueues(cfg: Config, owned: set<Address>, foreign: map<Key, TxRecord>, p: Pool, s: PoolStep)
    requires PoolInv(cfg, owned, foreign, p) && PoolEnabled(cfg, p, s) && QueuesOk(p.queues, p.tickets)
    ensures var q := PoolNext(cfg, p, s); QueuesOk(q.queues, q.tickets)
  {
    hide PoolInv, StepAllowed, StepAccount, QueuesOk, Join, Crash, Boot, FinishBoot, CanFinishBoot;
    match s
    case Routed(sub, prefer) =>
      RouteQueues(p.queues, p.tickets, Ticket(sub, Target(p.binds, sub.orderingKey, prefer), InQueue));
    case Released(k) => SameQueues(p.queues, p.tickets, p.tickets - {k});
    case Stepped(a, t) => StepQueues(cfg, owned, foreign, p, a, t);
    case ProcessCrashed => EmptyQueues();
    case _ =>
  }

  lemma EmptyQueues()
    ensures QueuesOk(map[], map[])
  {
  }

  /** In every state of every run a lane's queue lists exactly the submits that wait for it. */
  lemma {:induction false} QueuesListWaiting(cfg: Config, owned: set<Address>, foreign: map<Key, TxRecord>, steps: seq<PoolStep>, p: Pool)
    requires AllForeign(cfg, owned, foreign) && PoolRun(cfg, owned, foreign, steps) == Ok(p)
    ensures QueuesOk(p.queues, p.tickets)
    decreases |steps|
  {
    hide PoolInv, PoolEnabled, PoolNext, QueuesOk;
    if steps == [] {
      EmptyQueues();
    } else {
      var before := steps[..|steps| - 1];
      var b := PoolRun(cfg, owned, foreign, before).value;
      QueuesListWaiting(cfg, owned, foreign, before, b);
      PoolRunKeeps(cfg, owned, foreign, before);
      PoolStepQueues(cfg, owned, foreign, b, steps[|steps| - 1]);
    }
  }

  // ----- progress -----

  /** A lane with waiting submits is never stuck: as soon as it is idle the first of them can open its
      turn, for nothing live holds its key. */
  lemma FirstInQueueCanOpen(cfg: Config, owned: set<Address>, foreign: map<Key, TxRecord>, steps: seq<PoolStep>, p: Pool, k: Key)
    requires AllForeign(cfg, owned, foreign) && PoolRun(cfg, owned, foreign, steps) == Ok(p)
    requires k in p.tickets && p.tickets[k].phase.InQueue?
    ensures var a := p.tickets[k].account;
            && a in p.accts && a in p.queues && k in p.queues[a]
            && var next := p.queues[a][0];
               && next in p.tickets
               && (p.accts[a].turn.Idle? ==> StepAllowed(cfg, p, a, Submitting(OpenedTurn(p.tickets[next].sub))))
  {
    hide PoolRun, PoolInv, StepAllowed;
    PoolRunKeeps(cfg, owned, foreign, steps);
    QueuesListWaiting(cfg, owned, foreign, steps, p);
    var a := p.tickets[k].account;
    var next := p.queues[a][0];
    assert next in p.queues[a] && Waits(p.tickets, a, next);
    hide QueuesOk;
    TicketCanOpen(cfg, owned, foreign, p, next);
  }

  lemma TicketCanOpen(cfg: Config, owned: set<Address>, foreign: map<Key, TxRecord>, p: Pool, k: Key)
    requires PoolInv(cfg, owned, foreign, p) && k in p.tickets && p.tickets[k].phase.InQueue?
    requires IsNext(p.queues, p.tickets[k].account, k)
    ensures var t := p.tickets[k];
            && t.account in p.accts
            && (p.accts[t.account].turn.Idle? ==> StepAllowed(cfg, p, t.account, Submitting(OpenedTurn(t.sub))))
  {
    hide PoolInv, KeyFree, TickEnabled, BootEnabled, IsNext;
    TicketHasAccount(cfg, owned, foreign, p, k);
    FreeInQueue(cfg, owned, foreign, p, k);
  }

  // ----- first routed, first opened -----

  /** In the queue of a, k comes before l. */
  ghost predicate Before(queues: map<Address, seq<Key>>, a: Address, k: Key, l: Key) {
    a in queues && exists i, j :: 0 <= i < j < |queues[a]| && queues[a][i] == k && queues[a][j] == l
  }

  /** The step opens the turn of k on a. */
  predicate Opens(s: PoolStep, a: Address, k: Key) {
    s.Stepped? && s.account == a && s.step.Submitting? && s.step.s.OpenedTurn? && s.step.s.sub.key == k
  }

  /** Among the steps is the opening of k's turn on a, or a crash of the process. */
  ghost predicate OpenedOrCrashed(steps: seq<PoolStep>, a: Address, k: Key) {
    exists i | 0 <= i < |steps| :: Opens(steps[i], a, k) || steps[i].ProcessCrashed?
  }

  lemma StepKeepsOrder(cfg: Config, p: Pool, s: PoolStep, a: Address, k: Key, l: Key)
    requires PoolEnabled(cfg, p, s) && Before(p.queues, a, k, l) && !s.ProcessCrashed? && !Opens(s, a, k)
    ensures Before(PoolNext(cfg, p, s).queues, a, k, l)
  {
    hide Enabled, Next, WrittenBy, EffectOf, TicketsNext, TokensNext, BindsNext, ViewOf, KeyUnused, KeyFree, CanFinishBoot;
    var i, j :| 0 <= i < j < |p.queues[a]| && p.queues[a][i] == k && p.queues[a][j] == l;
    var next := PoolNext(cfg, p, s).queues;
    if s.Stepped? && s.account == a && s.step.Submitting? && s.step.s.OpenedTurn? {
      assert next[a][i - 1] == k && next[a][j - 1] == l;
    } else {
      assert next[a][i] == k && next[a][j] == l;
    }
  }

  /** Until k's turn opens or the process crashes, what came after k stays behind it. */
  lemma {:induction false} StaysBehind(cfg: Config, owned: set<Address>, foreign: map<Key, TxRecord>, first: seq<PoolStep>,
                                       more: seq<PoolStep>, p: Pool, q: Pool, a: Address, k: Key, l: Key)
    requires PoolRun(cfg, owned, foreign, first) == Ok(p) && PoolRun(cfg, owned, foreign, first + more) == Ok(q)
    requires Before(p.queues, a, k, l)
    ensures Before(q.queues, a, k, l) || OpenedOrCrashed(more, a, k)
    decreases |more|
  {
    hide PoolEnabled, PoolNext, Before, Opens;
    if more == [] {
      assert first + more == first;
    } else {
      var n := |more| - 1;
      assert (first + more)[..|first + more| - 1] == first + more[..n];
      var m := PoolRun(cfg, owned, foreign, first + more[..n]).value;
      StaysBehind(cfg, owned, foreign, first, more[..n], p, m, a, k, l);
      if i :| 0 <= i < n && (Opens(more[..n][i], a, k) || more[..n][i].ProcessCrashed?) {
        assert more[i] == more[..n][i];
      } else if !Opens(more[n], a, k) && !more[n].ProcessCrashed? {
        StepKeepsOrder(cfg, m, more[n], a, k, l);
      }
    }
  }

  lemma TurnDoesNotWait(cfg: Config, owned: set<Address>, foreign: map<Key, TxRecord>, p: Pool, a: Address, b: Address, k: Key, l: Key)
    requires PoolInv(cfg, owned, foreign, p) && QueuesOk(p.queues, p.tickets) && b in p.accts && !p.accts[b].turn.Idle?
    requires TurnSlot(p.accts[b].turn).value.key == l
    ensures !Before(p.queues, a, k, l)
  {
    hide PoolInv;
    TurnTicket(cfg, owned, foreign, p, b);
    BeforeIsListed(p.queues, a, k, l);
    hide Before;
  }

  lemma BeforeIsListed(queues: map<Address, seq<Key>>, a: Address, k: Key, l: Key)
    ensures Before(queues, a, k, l) ==> a in queues && l in queues[a]
  {
  }

  /** While a submit waits for a lane, one routed to the same lane after it does not get its turn
      before it, short of a crash. */
  lemma FirstRoutedOpensFirst(cfg: Config, owned: set<Address>, foreign: map<Key, TxRecord>, first: seq<PoolStep>, sub: Submission,
                              prefer: Address, more: seq<PoolStep>, p: Pool, q: Pool, a: Address, b: Address, k: Key)
    requires AllForeign(cfg, owned, foreign)
    requires PoolRun(cfg, owned, foreign, first) == Ok(p) && Waits(p.tickets, a, k) && Target(p.binds, sub.orderingKey, prefer) == a
    requires PoolRun(cfg, owned, foreign, first + [Routed(sub, prefer)] + more) == Ok(q)
    requires b in q.accts && !q.accts[b].turn.Idle? && TurnSlot(q.accts[b].turn).value.key == sub.key
    ensures OpenedOrCrashed(more, a, k)
  {
    hide PoolRun, PoolInv, QueuesOk, Before, OpenedOrCrashed;
    var routed := first + [Routed(sub, prefer)];
    var m := PrefixRuns(cfg, owned, foreign, routed, more);
    QueuesListWaiting(cfg, owned, foreign, first, p);
    RoutesBehind(cfg, owned, foreign, first, sub, prefer, p, m, a, k);
    PoolRunKeeps(cfg, owned, foreign, routed + more);
    QueuesListWaiting(cfg, owned, foreign, routed + more, q);
    TurnDoesNotWait(cfg, owned, foreign, q, a, b, k, sub.key);
    StaysBehind(cfg, owned, foreign, routed, more, m, q, a, k, sub.key);
  }

  lemma {:induction false} PrefixRuns(cfg: Config, owned: set<Address>, foreign: map<Key, TxRecord>, first: seq<PoolStep>,
                                      more: seq<PoolStep>) returns (m: Pool)
    requires PoolRun(cfg, owned, foreign, first + more).Ok?
    ensures PoolRun(cfg, owned, foreign, first) == Ok(m)
    decreases |more|
  {
    hide PoolEnabled, PoolNext;
    if more == [] {
      assert first + more == first;
      m := PoolRun(cfg, owned, foreign, first).value;
    } else {
      assert (first + more)[..|first + more| - 1] == first + more[..|more| - 1];
      m := PrefixRuns(cfg, owned, foreign, first, more[..|more| - 1]);
    }
  }

  lemma RoutesBehind(cfg: Config, owned: set<Address>, foreign: map<Key, TxRecord>, first: seq<PoolStep>, sub: Submission,
                     prefer: Address, p: Pool, m: Pool, a: Address, k: Key)
    requires PoolRun(cfg, owned, foreign, first) == Ok(p) && PoolRun(cfg, owned, foreign, first + [Routed(sub, prefer)]) == Ok(m)
    requires QueuesOk(p.queues, p.tickets) && Waits(p.tickets, a, k) && Target(p.binds, sub.orderingKey, prefer) == a
    ensures Before(m.queues, a, k, sub.key)
  {
    hide KeyUnused;
    assert (first + [Routed(sub, prefer)])[..|first + [Routed(sub, prefer)]| - 1] == first;
    var i :| 0 <= i < |p.queues[a]| && p.queues[a][i] == k;
    assert m.queues[a] == p.queues[a] + [sub.key];
    assert m.queues[a][i] == k && m.queues[a][|p.queues[a]|] == sub.key;
  }

  /** A stream is first in, first out: of two submits of one ordering key, the second routed while the
      first still waits, the first has had its turn opened by the time the second has one, on whatever
      account, unless the process has crashed in between. */
  lemma StreamIsFifo(cfg: Config, owned: set<Address>, foreign: map<Key, TxRecord>, first: seq<PoolStep>, sub: Submission,
                     prefer: Address, more: seq<PoolStep>, p: Pool, q: Pool, k: Key, o: OrderingKey, b: Address)
    requires AllForeign(cfg, owned, foreign)
    requires PoolRun(cfg, owned, foreign, first) == Ok(p) && k in p.tickets && p.tickets[k].phase.InQueue?
    requires p.tickets[k].sub.orderingKey == Some(o) == sub.orderingKey
    requires PoolRun(cfg, owned, foreign, first + [Routed(sub, prefer)] + more) == Ok(q)
    requires b in q.accts && !q.accts[b].turn.Idle? && TurnSlot(q.accts[b].turn).value.key == sub.key
    ensures OpenedOrCrashed(more, p.tickets[k].account, k)
  {
    hide PoolRun, PoolInv, Opens, AllWorkOn, OpenedOrCrashed;
    WorkIsPinned(cfg, owned, foreign, first, p, o);
    assert k in UnfinishedSubmits(p, o);
    PinOfWork(p, o, k);
    FirstRoutedOpensFirst(cfg, owned, foreign, first, sub, prefer, more, p, q, p.tickets[k].account, b, k);
  }

  /** And the nonces follow that order: if the first submit's transaction was tracked in between, the
      second's turn is on the same account under a greater nonce, or the first was settled and had
      released its ref. */
  lemma AcceptedInOrder(cfg: Config, owned: set<Address>, foreign: map<Key, TxRecord>, first: seq<PoolStep>, sub: Submission,
                        prefer: Address, before: seq<PoolStep>, more: seq<PoolStep>, p: Pool, m: Pool, q: Pool, k: Key,
                        o: OrderingKey, b: Address)
    requires AllForeign(cfg, owned, foreign)
    requires PoolRun(cfg, owned, foreign, first) == Ok(p) && k in p.tickets && p.tickets[k].phase.InQueue?
    requires p.tickets[k].sub.orderingKey == Some(o) == sub.orderingKey
    requires PoolRun(cfg, owned, foreign, first + [Routed(sub, prefer)] + before) == Ok(m)
    requires var a := p.tickets[k].account;
             && a in m.accts && m.accts[a].turn.Stored? && m.accts[a].turn.rec.key == k && m.accts[a].turn.rec.orderingKey == Some(o)
             && PoolRun(cfg, owned, foreign, first + [Routed(sub, prefer)] + before + [Stepped(a, Submitting(TrackedLive))] + more) == Ok(q)
    requires OpenTurnOf(q, b, o) && TurnSlot(q.accts[b].turn).value.key == sub.key
    ensures var a := p.tickets[k].account;
            && OpenedOrCrashed(before + [Stepped(a, Submitting(TrackedLive))] + more, a, k)
            && ((b == a && m.accts[a].turn.rec.nonce < TurnNonce(q.accts[b].turn).value)
                || ReleasedDuring(cfg, a, Land(m.accts[a]), StepsOf(a, more), k))
  {
    hide PoolRun, PoolInv, OpenedOrCrashed, ReleasedDuring, StepsOf;
    var a, landing := p.tickets[k].account, [Stepped(p.tickets[k].account, Submitting(TrackedLive))];
    TurnsFollow(cfg, owned, foreign, first + [Routed(sub, prefer)] + before, more, m, q, a, b, o);
    var all, routed := before + landing + more, first + [Routed(sub, prefer)];
    assert routed + before + landing + more == routed + all;
    StreamIsFifo(cfg, owned, foreign, first, sub, prefer, all, p, q, k, o, b);
  }

  lemma PinOfWork(p: Pool, o: OrderingKey, k: Key)
    requires k in UnfinishedSubmits(p, o) && o in p.binds && AllWorkOn(p, o, p.binds[o].account)
    ensures p.tickets[k].account == p.binds[o].account
  {
  }
}
