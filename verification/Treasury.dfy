/** The treasury funder as an object (src/balance/treasury-funder.ts): a call of maybeTopUp takes the
    steps of the protocol, and over calls that do not overlap the treasury's floor holds. */
module Treasury {
  import opened Records
  import opened FeeOracles
  import opened Cursors
  import opened AccountScripts
  import opened TreasuryProtocol
  import Lanes

  /** What one call learns from the chain: the recipient's and the treasury's balance, the base fee,
      the pending count of an unseeded lane, what becomes of the send and the count after a drift. */
  datatype Call = Call(
    addr: Address, balance: Result<int>, baseFee: Result<Option<int>>, treasury: Result<int>,
    count: Option<nat>, send: SendAnswer, chain: nat)

  /** The recipient is seen to have recovered. */
  predicate Recovered(o: Options, c: Call) {
    c.balance.Ok? && c.balance.value >= o.targetBalanceWei
  }

  /** The treasury can pay the missing amount, the gas and its floor. */
  predicate Affordable(o: Options, c: Call) {
    && c.balance.Ok? && Price(o.oracle, c.baseFee).Ok? && c.treasury.Ok?
    && c.treasury.value >= (o.targetBalanceWei - c.balance.value) + MaxGasCost(Price(o.oracle, c.baseFee).value) + Floor(o)
  }

  function TurnOf(c: Call): Lanes.Op {
    Lanes.Turn(c.count, [], match c.send
                            case Sent(_) => Lanes.Done
                            case DriftError => Lanes.Drifted(c.chain)
                            case OtherError => Lanes.Refused)
  }

  datatype State = State(pending: set<Address>, cursor: Option<nat>)

  /** A call gets as far as its lane turn. */
  predicate Attempts(o: Options, s: State, c: Call) {
    c.balance.Ok? && !Recovered(o, c) && c.addr !in s.pending && Affordable(o, c)
  }

  /** The transfer the node accepts in a call, if any. */
  function Accepted(o: Options, s: State, c: Call): Option<Transfer> {
    if Attempts(o, s, c) && c.send.Sent? && Lanes.NonceLaneGrants(s.cursor, TurnOf(c)).Some? then
      Some(Transfer(c.addr, o.targetBalanceWei - c.balance.value, Lanes.NonceLaneGrants(s.cursor, TurnOf(c)).value,
                    Price(o.oracle, c.baseFee).value))
    else None
  }

  function After(o: Options, s: State, c: Call): State {
    if Recovered(o, c) then s.(pending := s.pending - {c.addr})
    else if !Attempts(o, s, c) then s
    else State(if Accepted(o, s, c).Some? then s.pending + {c.addr} else s.pending, Lanes.NonceLaneMoves(s.cursor, TurnOf(c)))
  }

  // ----- a call as steps of the protocol -----

  /** From the lane turn's nonce on. */
  function SendSteps(c: Call): seq<FunderStep> {
    [Answered(c.addr, c.send)] +
    match c.send
    case Sent(_) => []
    case DriftError => [Recounted(c.addr, c.chain)] + [GaveUp(c.addr)]
    case OtherError => [GaveUp(c.addr)]
  }

  function TurnSteps(s: Funder, c: Call): seq<FunderStep> {
    [GotLane(c.addr)] +
    if s.cursor.Some? then SendSteps(c)
    else [Counted(c.addr, c.count)] + if c.count.Some? then SendSteps(c) else [GaveUp(c.addr)]
  }

  /** What a call does when nothing else happens in between. */
  function CallScript(o: Options, s: Funder, c: Call): seq<FunderStep> {
    [Began(c.addr)] + [SawBalance(c.addr, c.balance)] +
    if c.balance.Err? || Recovered(o, c) || c.addr in s.pending then []
    else
      [Priced(c.addr, c.baseFee)] +
      if Price(o.oracle, c.baseFee).Err? then []
      else [SawTreasury(c.addr, c.treasury)] + if Affordable(o, c) then TurnSteps(s, c) else []
  }

  function Now(s: Funder): State {
    State(s.pending, s.cursor)
  }

  /** The state a call leaves, the other calls untouched. */
  function AfterCall(o: Options, s: Funder, c: Call): Funder {
    var next := After(o, Now(s), c);
    var sent := Accepted(o, Now(s), c);
    s.(pending := next.pending, cursor := next.cursor,
       log := s.log + (if c.balance.Ok? then [Saw(c.addr, c.balance.value)] else [])
                    + (if sent.Some? then [Paid(sent.value)] else []))
  }

  lemma Snoc(o: Options, s: Funder, steps: seq<FunderStep>, t: FunderStep)
    requires FunderRun(o, s, steps).Ok? && FunderEnabled(FunderRun(o, s, steps).value, t)
    ensures FunderRun(o, s, steps + [t]) == Ok(FunderNext(o, FunderRun(o, s, steps).value, t))
  {
    hide FunderEnabled, FunderNext;
    assert (steps + [t])[..|steps + [t]| - 1] == steps;
  }

  /** A run followed by another. */
  lemma {:induction false} RunsChain(o: Options, s: Funder, before: seq<FunderStep>, more: seq<FunderStep>)
    requires FunderRun(o, s, before).Ok?
    ensures FunderRun(o, s, before + more) == FunderRun(o, FunderRun(o, s, before).value, more)
    decreases |more|
  {
    hide FunderEnabled, FunderNext;
    if more == [] {
      assert before + more == before;
    } else {
      RunsChain(o, s, before, more[..|more| - 1]);
      assert (before + more)[..|before + more| - 1] == before + more[..|more| - 1];
    }
  }

  lemma OneStep(o: Options, s: Funder, t: FunderStep)
    requires FunderEnabled(s, t)
    ensures FunderRun(o, s, [t]) == Ok(FunderNext(o, s, t))
  {
    hide FunderEnabled, FunderNext;
    assert FunderRun(o, s, []) == Ok(s) && [] + [t] == [t];
    Snoc(o, s, [], t);
  }

  /** One step, then the rest. */
  lemma StepThen(o: Options, s: Funder, t: FunderStep, rest: seq<FunderStep>)
    requires FunderEnabled(s, t)
    ensures FunderRun(o, s, [t] + rest) == FunderRun(o, FunderNext(o, s, t), rest)
  {
    hide FunderEnabled, FunderNext, FunderRun;
    OneStep(o, s, t);
    RunsChain(o, s, [t], rest);
  }

  lemma Dropped(calls: map<Address, Progress>, a: Address)
    ensures forall p {:trigger calls[a := p]} :: calls[a := p] - {a} == calls - {a}
    ensures a !in calls ==> calls - {a} == calls
  {
    forall p {:trigger calls[a := p]} ensures calls[a := p] - {a} == calls - {a} {
    }
  }

  lemma SendRuns(o: Options, s: Funder, c: Call)
    requires c.addr in s.calls && s.calls[c.addr].Sending?
    ensures var p := s.calls[c.addr];
            FunderRun(o, s, SendSteps(c)) ==
              Ok(match c.send
                 case Sent(_) =>
                   s.(calls := s.calls - {c.addr}, holder := None, cursor := Some(p.nonce + 1),
                      log := s.log + [Paid(Transfer(c.addr, p.amount, p.nonce, p.fees))])
                 case DriftError =>
                   s.(calls := s.calls - {c.addr}, holder := None, cursor := Some(Max(c.chain, p.nonce + 1)),
                      pending := s.pending - {c.addr})
                 case OtherError => s.(calls := s.calls - {c.addr}, holder := None, pending := s.pending - {c.addr}))
  {
    hide FunderRun;
    var a := c.addr;
    var answered := Answered(a, c.send);
    var s1 := FunderNext(o, s, answered);
    Dropped(s.calls, a);
    Dropped(s1.calls, a);
    match c.send {
      case Sent(_) =>
        assert SendSteps(c) == [answered];
        OneStep(o, s, answered);
      case DriftError =>
        StepThen(o, s, answered, [Recounted(a, c.chain)] + [GaveUp(a)]);
        StepThen(o, s1, Recounted(a, c.chain), [GaveUp(a)]);
        OneStep(o, FunderNext(o, s1, Recounted(a, c.chain)), GaveUp(a));
      case OtherError =>
        StepThen(o, s, answered, [GaveUp(a)]);
        OneStep(o, s1, GaveUp(a));
    }
  }

  lemma TurnRuns(o: Options, s: Funder, c: Call)
    requires c.addr in s.calls && s.calls[c.addr].Waiting? && s.holder.None?
    ensures var p := s.calls[c.addr];
            var nonce := Lanes.NonceLaneGrants(s.cursor, TurnOf(c));
            var sent := nonce.Some? && c.send.Sent?;
            FunderRun(o, s, TurnSteps(s, c)) ==
              Ok(s.(calls := s.calls - {c.addr}, cursor := Lanes.NonceLaneMoves(s.cursor, TurnOf(c)),
                    pending := if sent then s.pending else s.pending - {c.addr},
                    log := s.log + if sent then [Paid(Transfer(c.addr, p.amount, nonce.value, p.fees))] else []))
  {
    hide FunderRun, SendSteps;
    var a := c.addr;
    var s1 := FunderNext(o, s, GotLane(a));
    Dropped(s.calls, a);
    Dropped(s1.calls, a);
    assert s.log + [] == s.log;
    if s.cursor.Some? {
      StepThen(o, s, GotLane(a), SendSteps(c));
      SendRuns(o, s1, c);
    } else {
      var rest := if c.count.Some? then SendSteps(c) else [GaveUp(a)];
      StepThen(o, s, GotLane(a), [Counted(a, c.count)] + rest);
      StepThen(o, s1, Counted(a, c.count), rest);
      var s2 := FunderNext(o, s1, Counted(a, c.count));
      if c.count.Some? { SendRuns(o, s2, c); } else { OneStep(o, s2, GaveUp(a)); }
    }
  }

  /** A call is its script: performed alone it ends where the funder's own code ends. */
  lemma CallRuns(o: Options, s: Funder, c: Call)
    requires c.addr !in s.calls && s.holder.None?
    ensures FunderRun(o, s, CallScript(o, s, c)) == Ok(AfterCall(o, s, c))
  {
    hide FunderRun, TurnSteps, Price;
    var a := c.addr;
    var fees := Price(o.oracle, c.baseFee);
    var s1 := FunderNext(o, s, Began(a));
    var s2 := FunderNext(o, s1, SawBalance(a, c.balance));
    Dropped(s.calls, a);
    Dropped(s1.calls, a);
    assert s.log + [] + [] == s.log;
    assert c.balance.Ok? ==> s.log + [Saw(a, c.balance.value)] + [] == s.log + [Saw(a, c.balance.value)];
    if c.balance.Err? || Recovered(o, c) || a in s.pending {
      assert CallScript(o, s, c) == [Began(a)] + [SawBalance(a, c.balance)];
      StepThen(o, s, Began(a), [SawBalance(a, c.balance)]);
      OneStep(o, s1, SawBalance(a, c.balance));
    } else {
      var rest := if fees.Err? then []
                  else [SawTreasury(a, c.treasury)] + if Affordable(o, c) then TurnSteps(s, c) else [];
      assert CallScript(o, s, c) == [Began(a)] + ([SawBalance(a, c.balance)] + ([Priced(a, c.baseFee)] + rest));
      StepThen(o, s, Began(a), [SawBalance(a, c.balance)] + ([Priced(a, c.baseFee)] + rest));
      StepThen(o, s1, SawBalance(a, c.balance), [Priced(a, c.baseFee)] + rest);
      StepThen(o, s2, Priced(a, c.baseFee), rest);
      Dropped(s2.calls, a);
      assert forall p {:trigger s.calls[a := p]} :: s2.calls[a := p] == s.calls[a := p];
      assert FunderNext(o, s2, Priced(a, c.baseFee)) == AfterPrice(o, s, c);
      CheckedRuns(o, s, c);
    }
  }

  /** The state once a recipient below target, unmarked, has been priced. */
  function AfterPrice(o: Options, s: Funder, c: Call): Funder
    requires c.balance.Ok?
  {
    var seen := s.(log := s.log + [Saw(c.addr, c.balance.value)]);
    match Price(o.oracle, c.baseFee)
    case Err => seen
    case Ok(fees) => Go(seen, c.addr, Checking(o.targetBalanceWei - c.balance.value, fees))
  }

  lemma CheckedRuns(o: Options, s: Funder, c: Call)
    requires c.addr !in s.calls && s.holder.None? && c.balance.Ok? && !Recovered(o, c) && c.addr !in s.pending
    ensures FunderRun(o, AfterPrice(o, s, c),
                      if Price(o.oracle, c.baseFee).Err? then []
                      else [SawTreasury(c.addr, c.treasury)] + if Affordable(o, c) then TurnSteps(s, c) else [])
            == Ok(AfterCall(o, s, c))
  {
    hide FunderRun, TurnSteps, Price;
    var a := c.addr;
    var s2 := AfterPrice(o, s, c);
    Dropped(s.calls, a);
    Dropped(s2.calls, a);
    assert s.log + [Saw(a, c.balance.value)] + [] == s.log + [Saw(a, c.balance.value)];
    if Price(o.oracle, c.baseFee).Err? {
      NoStep(o, s2);
    } else {
      var turn := if Affordable(o, c) then TurnSteps(s, c) else [];
      var s3 := FunderNext(o, s2, SawTreasury(a, c.treasury));
      StepThen(o, s2, SawTreasury(a, c.treasury), turn);
      if Affordable(o, c) {
        SameTurn(s, s3, c);
        TurnRuns(o, s3, c);
        Dropped(s3.calls, a);
        assert s3.pending - {a} == s.pending;
      } else {
        NoStep(o, s3);
      }
    }
  }

  lemma NoStep(o: Options, s: Funder)
    ensures FunderRun(o, s, []) == Ok(s)
  {
  }

  lemma SameTurn(s: Funder, d: Funder, c: Call)
    requires s.cursor == d.cursor
    ensures TurnSteps(s, c) == TurnSteps(d, c)
  {
  }

  class TreasuryFunder {
    const opts: Options
    const lane: Lanes.NonceLane
    var pending: set<Address>
    ghost var model: Funder
    ghost var trace: seq<FunderStep>

    /** The marks and the lane are what the protocol reaches by the trace. */
    ghost predicate Valid()
      reads this, lane
    {
      FunderRun(opts, NewFunder, trace) == Ok(model) && model.pending == pending && model.cursor == lane.cursor
    }

    constructor (opts: Options)
      ensures Valid() && this.opts == opts && fresh(lane) && trace == [] && model == NewFunder
    {
      this.opts, pending := opts, {};
      lane := new Lanes.NonceLane();
      model, trace := NewFunder, [];
    }

    /** One call, with nothing in between: errors of the chain before the send leave everything as it
        was. Calls for other recipients may be open. */
    method MaybeTopUp(c: Call) returns (sent: Option<Transfer>)
      requires Valid() && c.addr !in model.calls && model.holder.None?
      modifies this, lane
      ensures Valid() && model == AfterCall(opts, old(model), c)
      ensures trace == old(trace) + CallScript(opts, old(model), c)
      ensures sent == Accepted(opts, Now(old(model)), c)
    {
      hide FunderRun, CallScript, Price;
      CallRuns(opts, model, c);
      RunsChain(opts, NewFunder, trace, CallScript(opts, model, c));
      sent := TopUp(c);
      model, trace := AfterCall(opts, model, c), trace + CallScript(opts, model, c);
    }

    method TopUp(c: Call) returns (sent: Option<Transfer>)
      modifies `pending, lane
      ensures sent == Accepted(opts, old(State(pending, lane.cursor)), c)
      ensures State(pending, lane.cursor) == After(opts, old(State(pending, lane.cursor)), c)
    {
      if c.balance.Err? {
        return None;
      }
      var balance := c.balance.value;
      if balance >= opts.targetBalanceWei {
        pending := pending - {c.addr};
        return None;
      }
      if c.addr in pending {
        return None;
      }
      var amount := opts.targetBalanceWei - balance;
      var fees := Price(opts.oracle, c.baseFee);
      if fees.Err? || c.treasury.Err? {
        return None;
      }
      if c.treasury.value < amount + MaxGasCost(fees.value) + Floor(opts) {
        return None;
      }
      pending := pending + {c.addr};
      var turn := TurnOf(c);
      var nonce := lane.WithNextNonce(c.count, [], turn.outcome);
      if nonce.Some? && c.send.Sent? {
        return Some(Transfer(c.addr, amount, nonce.value, fees.value));
      }
      pending := pending - {c.addr};
      return None;
    }
  }

  // ----- calls that do not overlap -----

  /** The state before each call of a run. */
  function Before(o: Options, calls: seq<Call>, i: nat): State
    requires i <= |calls|
  {
    if i == 0 then State({}, None) else After(o, Before(o, calls, i - 1), calls[i - 1])
  }

  // ----- the floor -----

  /** What a landed transfer and others do to the treasury after a call: the gas actually paid, and
      what comes in. */
  datatype Landing = Landing(gasCost: int, income: nat)

  function Spent(o: Options, s: State, c: Call, l: Landing): int {
    match Accepted(o, s, c)
    case None => 0
    case Some(t) => t.amount + l.gasCost
  }

  /** The true balance of the treasury before each call, if every send lands before the next one. */
  function Balance(o: Options, start: int, calls: seq<Call>, landings: seq<Landing>, i: nat): int
    requires i <= |calls| == |landings|
  {
    if i == 0 then start
    else
      Balance(o, start, calls, landings, i - 1) - Spent(o, Before(o, calls, i - 1), calls[i - 1], landings[i - 1])
      + landings[i - 1].income
  }

  /** Balances are read truly and no transfer costs more gas than it was signed for. */
  predicate Faithful(o: Options, start: int, calls: seq<Call>, landings: seq<Landing>)
    requires |calls| == |landings|
  {
    forall i | 0 <= i < |calls| ::
      && (calls[i].treasury.Ok? ==> calls[i].treasury.value == Balance(o, start, calls, landings, i))
      && (Price(o.oracle, calls[i].baseFee).Ok? ==> landings[i].gasCost <= MaxGasCost(Price(o.oracle, calls[i].baseFee).value))
  }

  /** The funder never takes the treasury below its floor, gas included: at every moment it holds the
      floor, or it never held it and has not been charged at all. */
  lemma {:induction false} FloorIsKept(o: Options, start: int, calls: seq<Call>, landings: seq<Landing>, i: nat)
    requires i <= |calls| == |landings| && Faithful(o, start, calls, landings)
    ensures var b := Balance(o, start, calls, landings, i);
            b >= Floor(o) || (b >= start && forall m | 0 <= m < i :: Accepted(o, Before(o, calls, m), calls[m]).None?)
  {
    if i > 0 {
      FloorIsKept(o, start, calls, landings, i - 1);
    }
  }
}
