/** A submit of the facade (src/pool.ts) as a run of the pool protocol. */
module PoolSubmits {
  import opened Records
  import opened AccountProtocol
  import opened AccountInvariant
  import opened AccountSteps
  import opened AccountScripts
  import opened Outcomes
  import opened PoolProtocol
  import opened PoolBindings
  import opened PoolInvariant
  import opened PoolSteps
  import opened PoolTheorems
  import opened PoolOrder

  function Lift(a: Address, steps: seq<Step>): seq<PoolStep> {
    seq(|steps|, i requires 0 <= i < |steps| => Stepped(a, steps[i]))
  }

  /** A step inside a turn. */
  predicate InsideTurn(s: Step) {
    s.Submitting? && !s.s.OpenedTurn?
  }

  predicate Returns(steps: seq<Step>) {
    steps != [] && steps[|steps| - 1] == Submitting(ClosedTurn)
  }

  /** While a turn goes on, the pool notices at most that its transaction is tracked; the end of it is a
      return or a throw. */
  lemma TurnEffect(cfg: Config, a: Address, c: Account, s: Step)
    requires Enabled(cfg, a, c, s) && InsideTurn(s)
    ensures !c.turn.Idle?
    ensures var e := EffectOf(c, s);
            if Next(cfg, a, c, s).turn.Idle? then e == (if s == Submitting(ClosedTurn) then EClose else EThrow)
            else e == NoEffect || e.ELand?
  {
    hide KeyFree, Upsert, Sign, Accept;
  }

  lemma RunOn(cfg: Config, owned: set<Address>, foreign: map<Key, TxRecord>, steps: seq<PoolStep>, p: Pool, s: PoolStep)
    requires PoolRun(cfg, owned, foreign, steps) == Ok(p) && PoolEnabled(cfg, p, s)
    ensures PoolRun(cfg, owned, foreign, steps + [s]) == Ok(PoolNext(cfg, p, s))
  {
    hide PoolEnabled, PoolNext;
    assert (steps + [s])[..|steps + [s]| - 1] == steps;
  }

  /** The ticket of a turn names it. */
  lemma TicketOfTurn(cfg: Config, owned: set<Address>, foreign: map<Key, TxRecord>, p: Pool, k: Key)
    requires PoolInv(cfg, owned, foreign, p) && k in p.tickets && p.tickets[k].phase.InTurn?
    ensures var a := p.tickets[k].account;
            a in p.accts && ViewOf(p.accts[a]).turn == Some(Slot(k, p.tickets[k].sub.orderingKey))
  {
    PoolBindingsOk(cfg, owned, foreign, p);
    hide PoolInv, TurnsTicketed, TokensHeld, HoldersHaveTokens, RefsOk, PinsOk, ViewOf;
    assert p.tickets[k].account in Views(p.accts);
  }

  /** One step of a turn, in the pool. */
  lemma TurnStep(cfg: Config, owned: set<Address>, foreign: map<Key, TxRecord>, steps: seq<PoolStep>, p: Pool, a: Address, s: Step,
                 others: map<Key, Ticket>, sub: Submission) returns (q: Pool)
    requires PoolRun(cfg, owned, foreign, steps) == Ok(p) && PoolInv(cfg, owned, foreign, p)
    requires sub.key !in others && p.tickets == others[sub.key := Ticket(sub, a, InTurn)]
    requires a in p.accts && Enabled(cfg, a, p.accts[a], s) && InsideTurn(s)
    ensures PoolRun(cfg, owned, foreign, steps + [Stepped(a, s)]) == Ok(q) && PoolInv(cfg, owned, foreign, q)
    ensures q.accts == p.accts[a := Next(cfg, a, p.accts[a], s)]
    ensures q.binds == p.binds && q.queues == p.queues && q.stage == p.stage
    ensures q.tickets == if !Next(cfg, a, p.accts[a], s).turn.Idle? then p.tickets
                         else if s == Submitting(ClosedTurn) then others
                         else others[sub.key := Ticket(sub, a, HasThrown)]
  {
    hide PoolRun, PoolInv, Enabled, Next, EffectOf, ViewOf, WrittenBy, TokensNext, KeyUnused;
    RunOn(cfg, owned, foreign, steps, p, Stepped(a, s));
    q := PoolNext(cfg, p, Stepped(a, s));
    TurnEffect(cfg, a, p.accts[a], s);
    TicketOfTurn(cfg, owned, foreign, p, sub.key);
    PoolStepKeeps(cfg, owned, foreign, p, Stepped(a, s));
  }

  /** The rest of a turn, in the pool. */
  lemma {:induction false} TurnRuns(cfg: Config, owned: set<Address>, foreign: map<Key, TxRecord>, steps: seq<PoolStep>, p: Pool,
                                    a: Address, turn: seq<Step>, d: Account, others: map<Key, Ticket>, sub: Submission) returns (q: Pool)
    requires PoolRun(cfg, owned, foreign, steps) == Ok(p) && PoolInv(cfg, owned, foreign, p)
    requires sub.key !in others && p.tickets == others[sub.key := Ticket(sub, a, InTurn)]
    requires a in p.accts && Perform(cfg, a, p.accts[a], turn) == Ok(d) && d.turn.Idle?
    requires turn != [] && forall i | 0 <= i < |turn| :: InsideTurn(turn[i])
    ensures PoolRun(cfg, owned, foreign, steps + Lift(a, turn)) == Ok(q) && PoolInv(cfg, owned, foreign, q)
    ensures q.accts == p.accts[a := d] && q.binds == p.binds && q.queues == p.queues && q.stage == p.stage
    ensures q.tickets == if Returns(turn) then others else others[sub.key := Ticket(sub, a, HasThrown)]
    decreases |turn|
  {
    hide PoolRun, PoolInv, Enabled, Next;
    var s := turn[0];
    var m := TurnStep(cfg, owned, foreign, steps, p, a, s, others, sub);
    assert steps + Lift(a, turn) == steps + [Stepped(a, s)] + Lift(a, turn[1..]);
    if m.accts[a].turn.Idle? {
      if turn[1..] != [] {
        TurnEffect(cfg, a, m.accts[a], turn[1]);
        assert false;
      }
      assert Lift(a, turn[1..]) == [];
      assert steps + [Stepped(a, s)] + [] == steps + [Stepped(a, s)];
      q := m;
    } else {
      PerformNothing(cfg, a, m.accts[a]);
      if turn[1..] == [] {
        assert false;
      }
      q := TurnRuns(cfg, owned, foreign, steps + [Stepped(a, s)], m, a, turn[1..], d, others, sub);
    }
  }

  /** After its first step a submit stays inside its turn, which it closes exactly if it is accepted. */
  lemma ScriptOfTurn(cfg: Config, c: Account, req: Request, ans: SubmitAnswers)
    ensures var script := SubmitScript(cfg, c, req, ans);
            && |script| >= 2 && script[0] == Submitting(OpenedTurn(req.sub))
            && (forall i | 1 <= i < |script| :: InsideTurn(script[i]))
            && (Returns(script) <==> Admits(cfg, c, req, ans) && ans.send.Sent?)
  {
    hide Price, GasFor;
  }

  /** The steps of a submit that nobody comes in between of: routed, its script, and its ref given back
      if it throws. */
  function SubmitSteps(cfg: Config, p: Pool, a: Address, req: Request, ans: SubmitAnswers, prefer: Address): seq<PoolStep>
    requires a in p.accts
  {
    var c := p.accts[a];
    [Routed(req.sub, prefer)] + Lift(a, SubmitScript(cfg, c, req, ans))
    + if Admits(cfg, c, req, ans) && ans.send.Sent? then [] else [Released(req.sub.key)]
  }

  lemma OpensInPool(cfg: Config, owned: set<Address>, foreign: map<Key, TxRecord>, steps: seq<PoolStep>, p: Pool, a: Address,
                    sub: Submission) returns (q: Pool)
    requires PoolRun(cfg, owned, foreign, steps) == Ok(p) && PoolInv(cfg, owned, foreign, p)
    requires a in p.accts && sub.key in p.tickets && p.tickets[sub.key] == Ticket(sub, a, InQueue)
    requires IsNext(p.queues, a, sub.key) && p.accts[a].turn.Idle?
    ensures PoolRun(cfg, owned, foreign, steps + [Stepped(a, Submitting(OpenedTurn(sub)))]) == Ok(q) && PoolInv(cfg, owned, foreign, q)
    ensures CanOpenTurn(p.accts[a], sub) && q.accts == p.accts[a := OpenTurn(p.accts[a], sub)]
    ensures q.tickets == p.tickets[sub.key := Ticket(sub, a, InTurn)] && q.queues == p.queues[a := p.queues[a][1..]]
    ensures q.binds == p.binds && q.stage == p.stage
  {
    hide PoolRun, PoolInv, KeyFree, KeyUnused, ViewOf, TickEnabled, TickNext, BootEnabled, BootNext;
    TicketCanOpen(cfg, owned, foreign, p, sub.key);
    var s := Stepped(a, Submitting(OpenedTurn(sub)));
    RunOn(cfg, owned, foreign, steps, p, s);
    PoolStepKeeps(cfg, owned, foreign, p, s);
    q := PoolNext(cfg, p, s);
  }

  lemma RoutesInPool(cfg: Config, owned: set<Address>, foreign: map<Key, TxRecord>, steps: seq<PoolStep>, p: Pool, sub: Submission,
                     prefer: Address) returns (q: Pool)
    requires PoolRun(cfg, owned, foreign, steps) == Ok(p) && PoolInv(cfg, owned, foreign, p) && PoolEnabled(cfg, p, Routed(sub, prefer))
    ensures PoolRun(cfg, owned, foreign, steps + [Routed(sub, prefer)]) == Ok(q) && PoolInv(cfg, owned, foreign, q)
    ensures q == Route(p, sub, prefer) && Target(p.binds, sub.orderingKey, prefer) in q.accts && sub.key !in p.tickets
  {
    hide PoolRun, PoolInv, KeyFree;
    RunOn(cfg, owned, foreign, steps, p, Routed(sub, prefer));
    PoolStepKeeps(cfg, owned, foreign, p, Routed(sub, prefer));
    q := Route(p, sub, prefer);
    TicketHasAccount(cfg, owned, foreign, q, sub.key);
  }

  /** Releasing the ref of a submit that threw gives the bindings back. */
  lemma ReleasesInPool(cfg: Config, owned: set<Address>, foreign: map<Key, TxRecord>, steps: seq<PoolStep>, p: Pool, sub: Submission,
                       a: Address, binds: map<OrderingKey, Binding>, prefer: Address, others: map<Key, Ticket>) returns (q: Pool)
    requires PoolRun(cfg, owned, foreign, steps) == Ok(p) && sub.key !in others
    requires p.tickets == others[sub.key := Ticket(sub, a, HasThrown)] && p.binds == BindSome(binds, sub.orderingKey, prefer)
    requires forall o | o in binds :: binds[o].refs >= 1
    ensures PoolRun(cfg, owned, foreign, steps + [Released(sub.key)]) == Ok(q)
    ensures q.accts == p.accts && q.queues == p.queues && q.stage == p.stage && q.tickets == others && q.binds == binds
  {
    hide PoolRun;
    RunOn(cfg, owned, foreign, steps, p, Released(sub.key));
    q := PoolNext(cfg, p, Released(sub.key));
  }

  lemma RefsArePositive(cfg: Config, owned: set<Address>, foreign: map<Key, TxRecord>, p: Pool)
    requires PoolInv(cfg, owned, foreign, p)
    ensures forall o | o in p.binds :: p.binds[o].refs >= 1
  {
    PoolBindingsOk(cfg, owned, foreign, p);
    hide PoolInv, TurnsTicketed, TicketsOk, TokensHeld, HoldersHaveTokens, PinsOk, Views;
  }

  /** The facade's submit is a run of the pool: on a lane for which nobody waits, the submit is routed,
      takes its script and, if it throws, gives its ref back. The account ends where the script leads,
      the others and the other submits are as before, and the bindings have one ref more exactly if
      the transaction was accepted. */
  lemma SubmitIsPoolRun(cfg: Config, owned: set<Address>, foreign: map<Key, TxRecord>, steps: seq<PoolStep>, p: Pool, a: Address,
                        req: Request, ans: SubmitAnswers, prefer: Address) returns (q: Pool)
    requires AllForeign(cfg, owned, foreign) && PoolRun(cfg, owned, foreign, steps) == Ok(p)
    requires PoolEnabled(cfg, p, Routed(req.sub, prefer)) && a == Target(p.binds, req.sub.orderingKey, prefer)
    requires a in p.accts && p.accts[a].turn.Idle? && (a in p.queues ==> p.queues[a] == [])
    ensures PoolRun(cfg, owned, foreign, steps + SubmitSteps(cfg, p, a, req, ans, prefer)) == Ok(q)
    ensures Perform(cfg, a, p.accts[a], SubmitScript(cfg, p.accts[a], req, ans)).Ok?
    ensures q.accts == p.accts[a := Perform(cfg, a, p.accts[a], SubmitScript(cfg, p.accts[a], req, ans)).value]
    ensures q.binds == if Admits(cfg, p.accts[a], req, ans) && ans.send.Sent? then BindSome(p.binds, req.sub.orderingKey, a) else p.binds
    ensures q.tickets == p.tickets && q.queues == p.queues[a := []] && q.stage == p.stage
  {
    hide PoolRun, PoolInv, PoolEnabled, Perform, SubmitScript, Admits, AllOrNothing, CanOpenTurn, OpenTurn;
    var sub, c := req.sub, p.accts[a];
    var script := SubmitScript(cfg, c, req, ans);
    PoolRunKeeps(cfg, owned, foreign, steps);
    var m := RoutesInPool(cfg, owned, foreign, steps, p, sub, prefer);
    var n := OpensInPool(cfg, owned, foreign, steps + [Routed(sub, prefer)], m, a, sub);
    SubmitIsAllOrNothing(cfg, a, c, req, ans);
    var d := Perform(cfg, a, c, script).value;
    ScriptOfTurn(cfg, c, req, ans);
    EndsIdle(cfg, a, c, req, ans, d);
    PerformsRest(cfg, a, c, sub, script);
    assert n.tickets == p.tickets[sub.key := Ticket(sub, a, InTurn)];
    var begun := steps + [Routed(sub, prefer)] + [Stepped(a, script[0])];
    var r := TurnRuns(cfg, owned, foreign, begun, n, a, script[1..], d, p.tickets, sub);
    assert begun + Lift(a, script[1..]) == steps + ([Routed(sub, prefer)] + Lift(a, script));
    assert r.accts == p.accts[a := d];
    RefsArePositive(cfg, owned, foreign, p);
    assert BindSome(p.binds, sub.orderingKey, prefer) == BindSome(p.binds, sub.orderingKey, a);
    if Admits(cfg, c, req, ans) && ans.send.Sent? {
      q := r;
      assert steps + SubmitSteps(cfg, p, a, req, ans, prefer) == steps + ([Routed(sub, prefer)] + Lift(a, script));
    } else {
      q := ReleasesInPool(cfg, owned, foreign, steps + ([Routed(sub, prefer)] + Lift(a, script)), r, sub, a, p.binds, prefer, p.tickets);
      assert steps + SubmitSteps(cfg, p, a, req, ans, prefer) == steps + ([Routed(sub, prefer)] + Lift(a, script)) + [Released(sub.key)];
    }
  }

  /** Between two submits: everything is up, and nothing is on its way. */
  predicate Quiescent(p: Pool) {
    p.stage.AllUp? && p.tickets == map[] && forall a | a in p.queues :: p.queues[a] == []
  }

  /** The same from and to such a state, with the account given by the trace of its steps. */
  lemma SubmitBetween(cfg: Config, owned: set<Address>, foreign: map<Key, TxRecord>, steps: seq<PoolStep>, p: Pool, a: Address,
                      req: Request, ans: SubmitAnswers, prefer: Address, trace: seq<Step>, model: Account) returns (q: Pool)
    requires AllForeign(cfg, owned, foreign) && PoolRun(cfg, owned, foreign, steps) == Ok(p) && Quiescent(p)
    requires req.sub.key !in p.store && (forall b | b in p.accts :: CanOpenTurn(p.accts[b], req.sub))
    requires prefer in p.accts && a in p.accts && a == Target(p.binds, req.sub.orderingKey, prefer)
    requires Run(cfg, a, trace) == Ok(p.accts[a])
    requires Run(cfg, a, trace + SubmitScript(cfg, p.accts[a], req, ans)) == Ok(model)
    ensures PoolRun(cfg, owned, foreign, steps + SubmitSteps(cfg, p, a, req, ans, prefer)) == Ok(q) && Quiescent(q)
    ensures q.accts == p.accts[a := model]
    ensures q.binds == if Admits(cfg, p.accts[a], req, ans) && ans.send.Sent? then BindSome(p.binds, req.sub.orderingKey, a) else p.binds
  {
    hide PoolRun, Run, SubmitScript, SubmitSteps, Admits, KeyFree, BindSome, Target, Perform;
    q := SubmitIsPoolRun(cfg, owned, foreign, steps, p, a, req, ans, prefer);
    RunThenPerform(cfg, a, trace, p.accts[a], SubmitScript(cfg, p.accts[a], req, ans));
  }

  lemma EndsIdle(cfg: Config, a: Address, c: Account, req: Request, ans: SubmitAnswers, d: Account)
    requires AllOrNothing(cfg, a, c, req, ans, d)
    ensures d.turn.Idle?
  {
  }

  lemma PerformsRest(cfg: Config, a: Address, c: Account, sub: Submission, script: seq<Step>)
    requires script != [] && script[0] == Submitting(OpenedTurn(sub)) && CanOpenTurn(c, sub)
    ensures Perform(cfg, a, c, script) == Perform(cfg, a, OpenTurn(c, sub), script[1..])
  {
    hide TickEnabled, TickNext, BootEnabled, BootNext, KeyFree;
  }
}
