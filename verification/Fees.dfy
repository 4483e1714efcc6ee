/** The two shipped fee oracles and their replacement policy (src/fee). */
module FeeOracles {
  import opened Records

  const DEFAULT_BUMP_NUM := 1125
  const DEFAULT_BUMP_DEN := 1000

  datatype Oracle =
    | LegacyOracle(minGasPriceWei: int, bumpNum: int, bumpDen: int)
    | Eip1559Oracle(priorityFeeWei: int, headroomNum: int, headroomDen: int, bumpNum: int, bumpDen: int)

  function DefaultLegacy(minGasPriceWei: int): Oracle {
    LegacyOracle(minGasPriceWei, DEFAULT_BUMP_NUM, DEFAULT_BUMP_DEN)
  }

  /** BigInt division: it truncates toward zero and throws on a zero divisor. */
  function BigDiv(a: int, b: int): (r: Result<int>)
    ensures r.Err? <==> b == 0
    ensures r.Ok? && a >= 0 && b > 0 ==> r.value == a / b
    ensures r.Ok? && a < 0 && b > 0 ==> r.value == -(-a / b)
  {
    if b == 0 then Err
    else
      var q := Abs(a) / Abs(b);
      Ok(if (a < 0) == (b < 0) then q else -q)
  }

  function Abs(a: int): nat {
    if a < 0 then -a else a
  }

  function Estimate(o: Oracle, baseFee: Option<int>): Result<Fees> {
    match o
    case LegacyOracle(min, _, _) => Ok(Legacy(min))
    case Eip1559Oracle(tip, num, den, _, _) =>
      var base := if baseFee.Some? then baseFee.value else 0;
      match BigDiv(base * num, den)
      case Err => Err
      case Ok(scaled) => Ok(Eip1559(scaled + tip, tip))
  }

  /** Replacement fees; an oracle refuses fees of the other kind. */
  function Bump(o: Oracle, f: Fees): Result<Fees> {
    match (o, f)
    case (LegacyOracle(min, num, den), Legacy(price)) =>
      (match BigDiv(price * num, den)
       case Err => Err
       case Ok(bumped) => Ok(Legacy(if bumped > min then bumped else min)))
    case (Eip1559Oracle(_, _, _, num, den), Eip1559(fee, tip)) =>
      (match (BigDiv(fee * num, den), BigDiv(tip * num, den))
       case (Ok(newFee), Ok(newTip)) => Ok(Eip1559(newFee, newTip))
       case _ => Err)
    case _ => Err
  }

  /** The fees after n successful replacements. */
  function BumpTimes(o: Oracle, f: Fees, n: nat): Result<Fees> {
    if n == 0 then Ok(f)
    else
      match BumpTimes(o, f, n - 1)
      case Err => Err
      case Ok(g) => Bump(o, g)
  }

  function Pow(b: nat, n: nat): nat {
    if n == 0 then 1 else b * Pow(b, n - 1)
  }

  /** One default bump of an amount: plus an eighth, rounded down. */
  lemma DefaultBumpAmount(v: int)
    requires v >= 0
    ensures BigDiv(v * DEFAULT_BUMP_NUM, DEFAULT_BUMP_DEN) == Ok(9 * v / 8)
    ensures 9 * v - 7 <= 8 * (9 * v / 8) <= 9 * v
  {
    assert v * 1125 / 1000 == 9 * v / 8;
  }

  /** A default bump strictly raises a price exactly from 8 wei on, and never lowers one. */
  lemma DefaultBumpRises(v: int)
    requires v >= 0
    ensures BigDiv(v * DEFAULT_BUMP_NUM, DEFAULT_BUMP_DEN).Ok?
    ensures v <= BigDiv(v * DEFAULT_BUMP_NUM, DEFAULT_BUMP_DEN).value
    ensures v < BigDiv(v * DEFAULT_BUMP_NUM, DEFAULT_BUMP_DEN).value <==> v >= 8
  {
    DefaultBumpAmount(v);
  }

  /** Exactly when a default bump passes a node that asks for ten per cent more. */
  lemma DefaultBumpBeatsNode(v: int)
    requires v >= 0
    ensures BigDiv(v * DEFAULT_BUMP_NUM, DEFAULT_BUMP_DEN).Ok?
    ensures 10 * BigDiv(v * DEFAULT_BUMP_NUM, DEFAULT_BUMP_DEN).value >= 11 * v <==> v % 8 <= 2 * (v / 8)
    ensures v >= 32 ==> 10 * BigDiv(v * DEFAULT_BUMP_NUM, DEFAULT_BUMP_DEN).value >= 11 * v
  {
    DefaultBumpAmount(v);
    var q, r := v / 8, v % 8;
    assert 9 * v / 8 == 9 * q + r;
  }

  /** 31 wei is the last amount whose default bump a ten per cent rule refuses. */
  lemma LastRefusedAmount()
    ensures BigDiv(31 * DEFAULT_BUMP_NUM, DEFAULT_BUMP_DEN) == Ok(34) && 10 * 34 < 11 * 31
  {
    DefaultBumpAmount(31);
  }

  /** Any number of default bumps of a legacy price stays between two geometric bounds. */
  lemma {:induction false} GeometricBounds(min: int, g0: int, k: nat)
    requires 0 <= min <= g0
    ensures BumpTimes(DefaultLegacy(min), Legacy(g0), k).Ok?
    ensures BumpTimes(DefaultLegacy(min), Legacy(g0), k).value.Legacy?
    ensures var g := BumpTimes(DefaultLegacy(min), Legacy(g0), k).value.gasPrice;
            && g0 <= g
            && Pow(8, k) * (g - 7) >= Pow(9, k) * (g0 - 7)
            && Pow(8, k) * g <= Pow(9, k) * g0
  {
    if k > 0 {
      GeometricBounds(min, g0, k - 1);
      var g := BumpTimes(DefaultLegacy(min), Legacy(g0), k - 1).value.gasPrice;
      var h := BumpTimes(DefaultLegacy(min), Legacy(g0), k).value.gasPrice;
      DefaultBumpAmount(g);
      DefaultBumpRises(g);
      assert h == 9 * g / 8;
      ScaleStep(Pow(8, k - 1), Pow(9, k - 1), g, h, g0);
    }
  }

  lemma ScaleStep(p: nat, q: nat, g: int, h: int, g0: int)
    requires p * (g - 7) >= q * (g0 - 7) && p * g <= q * g0
    requires 9 * g - 7 <= 8 * h <= 9 * g
    ensures 8 * p * (h - 7) >= 9 * q * (g0 - 7)
    ensures 8 * p * h <= 9 * q * g0
  {
    calc {
      8 * p * (h - 7);
      p * (8 * h - 56);
    >= { MulMonotone(p, 9 * g - 63, 8 * h - 56); }
      p * (9 * g - 63);
      9 * (p * (g - 7));
    >=
      9 * (q * (g0 - 7));
    }
    calc {
      8 * p * h;
      p * (8 * h);
    <= { MulMonotone(p, 8 * h, 9 * g); }
      p * (9 * g);
      9 * (p * g);
    <=
      9 * (q * g0);
    }
  }

  lemma MulMonotone(p: nat, x: int, y: int)
    requires x <= y
    ensures p * x <= p * y
  {
  }

  lemma DivMonotone(x: int, y: int, d: int)
    requires 0 <= x <= y && d > 0
    ensures 0 <= x / d <= y / d
  {
    if x / d > y / d {
      assert x == d * (x / d) + x % d && y == d * (y / d) + y % d;
      MulMonotone(d, y / d + 1, x / d);
    }
  }

  /** The validity rule of EIP-1559: the fee cap covers the priority fee. */
  predicate FeeCapCoversTip(f: Fees) {
    f.Eip1559? && f.maxFeePerGas >= f.maxPriorityFeePerGas >= 0
  }

  lemma EstimateIsValid(o: Oracle, baseFee: Option<int>)
    requires o.Eip1559Oracle? && o.priorityFeeWei >= 0 && o.headroomNum >= 0 && o.headroomDen > 0
    requires baseFee.Some? ==> baseFee.value >= 0
    ensures Estimate(o, baseFee).Ok? && FeeCapCoversTip(Estimate(o, baseFee).value)
  {
    var base := if baseFee.Some? then baseFee.value else 0;
    assert base * o.headroomNum >= 0;
    DivMonotone(0, base * o.headroomNum, o.headroomDen);
  }

  lemma BumpIsValid(o: Oracle, f: Fees)
    requires o.Eip1559Oracle? && o.bumpNum >= 0 && o.bumpDen > 0 && FeeCapCoversTip(f)
    ensures Bump(o, f).Ok? && FeeCapCoversTip(Bump(o, f).value)
  {
    assert 0 <= f.maxPriorityFeePerGas * o.bumpNum <= f.maxFeePerGas * o.bumpNum by {
      MulMonotone(o.bumpNum, f.maxPriorityFeePerGas, f.maxFeePerGas);
      MulMonotone(o.bumpNum, 0, f.maxPriorityFeePerGas);
    }
    DivMonotone(f.maxPriorityFeePerGas * o.bumpNum, f.maxFeePerGas * o.bumpNum, o.bumpDen);
  }

  /** Validity survives the first estimate and every chain of replacements. */
  lemma {:induction false} ChainIsValid(o: Oracle, baseFee: Option<int>, n: nat)
    requires o.Eip1559Oracle? && o.priorityFeeWei >= 0 && o.headroomNum >= 0 && o.headroomDen > 0
    requires o.bumpNum >= 0 && o.bumpDen > 0
    requires baseFee.Some? ==> baseFee.value >= 0
    ensures Estimate(o, baseFee).Ok?
    ensures BumpTimes(o, Estimate(o, baseFee).value, n).Ok?
    ensures FeeCapCoversTip(BumpTimes(o, Estimate(o, baseFee).value, n).value)
  {
    EstimateIsValid(o, baseFee);
    if n > 0 {
      ChainIsValid(o, baseFee, n - 1);
      BumpIsValid(o, BumpTimes(o, Estimate(o, baseFee).value, n - 1).value);
    }
  }

  // ----- the node's replacement rule -----

  /** A node takes a replacement that raises every price by at least ten per cent. */
  predicate NodeTakes(was: Fees, now: Fees) {
    || (was.Legacy? && now.Legacy? && 10 * now.gasPrice >= 11 * was.gasPrice)
    || (was.Eip1559? && now.Eip1559? && 10 * now.maxFeePerGas >= 11 * was.maxFeePerGas
        && 10 * now.maxPriorityFeePerGas >= 11 * was.maxPriorityFeePerGas)
  }

  /** An amount that rounding does not keep below ten per cent more. */
  predicate BumpsEnough(v: int) {
    v % 8 <= 2 * (v / 8)
  }

  /** Exactly when the node takes one default bump: every price is large enough for rounding, or the
      legacy floor lifts it. */
  lemma NodeTakesBump(o: Oracle, f: Fees)
    requires (o.LegacyOracle? && f.Legacy? && f.gasPrice >= 0)
             || (o.Eip1559Oracle? && f.Eip1559? && f.maxFeePerGas >= 0 && f.maxPriorityFeePerGas >= 0)
    requires o.bumpNum == DEFAULT_BUMP_NUM && o.bumpDen == DEFAULT_BUMP_DEN
    ensures Bump(o, f).Ok?
    ensures NodeTakes(f, Bump(o, f).value) <==>
              match f
              case Legacy(price) => BumpsEnough(price) || 10 * o.minGasPriceWei >= 11 * price
              case Eip1559(fee, tip) => BumpsEnough(fee) && BumpsEnough(tip)
  {
    match f
    case Legacy(price) =>
      DefaultBumpBeatsNode(price);
    case Eip1559(fee, tip) =>
      DefaultBumpBeatsNode(fee);
      DefaultBumpBeatsNode(tip);
  }

  predicate AllAtLeast(f: Fees, v: int) {
    match f
    case Legacy(price) => price >= v
    case Eip1559(fee, tip) => fee >= v && tip >= v
  }

  /** Started at 32 wei or more, the node takes every replacement of a chain of default bumps. */
  lemma {:induction false} NodeTakesEveryReplacement(o: Oracle, f: Fees, k: nat)
    requires (o.LegacyOracle? && f.Legacy?) || (o.Eip1559Oracle? && f.Eip1559?)
    requires o.bumpNum == DEFAULT_BUMP_NUM && o.bumpDen == DEFAULT_BUMP_DEN && AllAtLeast(f, 32)
    ensures BumpTimes(o, f, k).Ok? && BumpTimes(o, f, k + 1).Ok?
    ensures BumpTimes(o, f, k).value.Legacy? <==> f.Legacy?
    ensures AllAtLeast(BumpTimes(o, f, k).value, 32)
    ensures NodeTakes(BumpTimes(o, f, k).value, BumpTimes(o, f, k + 1).value)
  {
    if k > 0 {
      NodeTakesEveryReplacement(o, f, k - 1);
      var g := BumpTimes(o, f, k - 1).value;
      match g {
        case Legacy(price) => DefaultBumpRises(price);
        case Eip1559(fee, tip) =>
          DefaultBumpRises(fee);
          DefaultBumpRises(tip);
      }
    }
    NodeTakesBump(o, BumpTimes(o, f, k).value);
  }
}
