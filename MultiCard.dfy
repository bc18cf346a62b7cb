/** The multi-card split optimizer (backend/src/services/MultiCardOptimizer.js). Every amount,
    balance and fee is an integer number of cents; fee rates are in tenths of a percent
    (per mille). The source computes in binary floating point on dollars. */
module MultiCard {
  import opened Wrappers
  import opened Formatting
  import opened Sorting

  const MinSplitAmount: int := 1000        // $10
  const MaxCardsPerTransaction: nat := 4
  const DefaultFixedFee: int := 30         // $0.30
  const SavingsThreshold: int := 50        // $0.50

  /** A card or wallet of the user; `cardType` and `fixedFee` may be absent. */
  datatype Card = Card(id: string, last4: string, cardType: Option<string>, balance: int, isActive: bool, fixedFee: Option<int>)

  /** One charge of a split. */
  datatype Split = Split(cardId: string, cardLast4: string, cardType: Option<string>, chargeAmount: int, fee: int)

  /** What each splitting strategy returns. */
  datatype Strategy = Strategy(possible: bool, strategy: string, splits: seq<Split>, totalFees: int)

  datatype SingleOption = SingleOption(
    cardId: string, cardLast4: string, cardType: Option<string>,
    balance: int, chargeAmount: int, estimatedFee: int, remainingBalance: int)

  /** `calculateOptimalSplit`'s result: `null` (fewer than two usable cards), an insufficient total,
      no possible strategy, or the chosen split. */
  datatype MultiOption =
    | NoMultiOption
    | Insufficient(totalAvailable: int, shortfall: int)
    | NoValidSplit
    | Chosen(strategy: string, splits: seq<Split>, totalFees: int, feesSaved: int, cardsUsed: nat)
  {
    /** `multiCard?.possible` */
    predicate Possible() {
      Chosen?
    }
  }

  datatype CardAction = AddFunds | UseMultiCard | UseSingleCard

  datatype Recommendation = Recommendation(
    recommended: bool, recommendedOption: Option<string>, reason: string, action: CardAction, savings: Option<int>)

  datatype Analysis =
    | NoCards
    | Analysis(transactionAmount: int, currency: Option<string>, totalAvailableBalance: int,
               singleCardOption: Option<SingleOption>, multiCardOption: MultiOption, recommendation: Recommendation)

  /** The outcome of one call of the payment callback: a returned result or a thrown error. */
  datatype Attempt = Returned(success: bool, transactionId: Option<string>, error: Option<string>) | Threw(message: string)

  datatype SplitResult = SplitResult(cardId: string, cardLast4: string, amount: int, success: bool,
                                     transactionId: Option<string>, error: Option<string>)

  datatype Execution = Execution(success: bool, totalCharged: int, totalFailed: int, splitResults: seq<SplitResult>, summary: string)

  function Min(a: int, b: int): (m: int)
    ensures m <= a && m <= b && (m == a || m == b)
  {
    if a < b then a else b
  }

  // ---------------------------------------------------------------------------
  // Fees

  function LowerChar(c: char): char {
    if 'A' <= c <= 'Z' then (c as int + 32) as char else c
  }

  /** `toLowerCase` on ASCII letters. */
  function Lower(s: string): (r: string)
    ensures |r| == |s| && forall i :: 0 <= i < |s| ==> r[i] == LowerChar(s[i])
  {
    if s == [] then [] else [LowerChar(s[0])] + Lower(s[1..])
  }

  /** Lower-casing twice is lower-casing once. */
  lemma {:induction false} LowerIdempotent(s: string)
    ensures Lower(Lower(s)) == Lower(s)
  {
    if s != [] {
      LowerIdempotent(s[1..]);
      assert Lower(s)[1..] == Lower(s[1..]);
    }
  }

  /** The table of `getFeeRate`, per mille, looked up by the lower-cased type: amex 35, debit 15,
      wallet 10, and 29 for visa, mastercard, discover, any other type and a missing one. */
  function TypeRate(cardType: Option<string>): (rate: nat)
    ensures rate in {10, 15, 29, 35}
    ensures rate == 35 <==> cardType.Some? && Lower(cardType.value) == "amex"
    ensures rate == 15 <==> cardType.Some? && Lower(cardType.value) == "debit"
    ensures rate == 10 <==> cardType.Some? && Lower(cardType.value) == "wallet"
    ensures rate == 29 <==> cardType.None? || Lower(cardType.value) !in {"amex", "debit", "wallet"}
  {
    var t := if cardType.Some? then Lower(cardType.value) else "undefined";
    if t == "amex" then 35
    else if t == "debit" then 15
    else if t == "wallet" then 10
    else 29
  }

  /** `getFeeRate`: the rate of the card's type. */
  function FeeRate(c: Card): (rate: nat)
    ensures rate in {10, 15, 29, 35}
    ensures rate == 35 <==> c.cardType.Some? && Lower(c.cardType.value) == "amex"
    ensures rate == 15 <==> c.cardType.Some? && Lower(c.cardType.value) == "debit"
    ensures rate == 10 <==> c.cardType.Some? && Lower(c.cardType.value) == "wallet"
    ensures rate == 29 <==> c.cardType.None? || Lower(c.cardType.value) !in {"amex", "debit", "wallet"}
  {
    TypeRate(c.cardType)
  }

  /** The type's letter case does not matter. */
  lemma FeeRateCaseInsensitive(c: Card)
    requires c.cardType.Some?
    ensures FeeRate(c) == FeeRate(c.(cardType := Some(Lower(c.cardType.value))))
  {
    LowerIdempotent(c.cardType.value);
  }

  /** `card.fixedFee || 0.30`: an absent or zero fixed fee is 30 cents. */
  function FixedFee(c: Card): (f: int)
    ensures c.fixedFee.None? || c.fixedFee == Some(0) ==> f == DefaultFixedFee
    ensures c.fixedFee.Some? && c.fixedFee.value != 0 ==> f == c.fixedFee.value
  {
    if c.fixedFee.None? || c.fixedFee.value == 0 then DefaultFixedFee else c.fixedFee.value
  }

  /** `estimateFee`: amount times rate plus the fixed fee, rounded half up to the cent. */
  function EstimateFee(amount: int, c: Card): (fee: int)
    ensures 2 * fee * 1000 <= 2 * (amount * FeeRate(c) + 1000 * FixedFee(c)) + 1000 < 2 * (fee + 1) * 1000
  {
    RoundHalfUp(amount * FeeRate(c) + 1000 * FixedFee(c), 1000)
  }

  /** A larger charge never costs a smaller fee. */
  lemma EstimateFeeMonotone(a: int, b: int, c: Card)
    requires a <= b
    ensures EstimateFee(a, c) <= EstimateFee(b, c)
  {
    var fa := EstimateFee(a, c);
    var fb := EstimateFee(b, c);
    assert a * FeeRate(c) <= b * FeeRate(c);
  }

  function SplitFor(c: Card, charge: int): (s: Split)
    ensures s.cardId == c.id && s.chargeAmount == charge && s.fee == EstimateFee(charge, c)
  {
    Split(c.id, c.last4, c.cardType, charge, EstimateFee(charge, c))
  }

  function SumCharges(splits: seq<Split>): int {
    if splits == [] then 0 else SumCharges(splits[..|splits| - 1]) + splits[|splits| - 1].chargeAmount
  }

  function SumFees(splits: seq<Split>): int {
    if splits == [] then 0 else SumFees(splits[..|splits| - 1]) + splits[|splits| - 1].fee
  }

  function SumBalances(cards: seq<Card>): int {
    if cards == [] then 0 else SumBalances(cards[..|cards| - 1]) + cards[|cards| - 1].balance
  }

  lemma {:induction false} SumChargesAppend(a: seq<Split>, b: seq<Split>)
    ensures SumCharges(a + b) == SumCharges(a) + SumCharges(b)
    decreases |b|
  {
    if b == [] {
      assert a + b == a;
    } else {
      SumChargesAppend(a, b[..|b| - 1]);
      assert (a + b)[..|a + b| - 1] == a + b[..|b| - 1];
      assert (a + b)[|a + b| - 1] == b[|b| - 1];
    }
  }

  /** Changing one charge changes the total by the difference. */
  lemma {:induction false} SumChargesUpdate(s: seq<Split>, i: nat, x: Split)
    requires i < |s|
    ensures SumCharges(s[i := x]) == SumCharges(s) - s[i].chargeAmount + x.chargeAmount
    decreases |s|
  {
    if i < |s| - 1 {
      SumChargesUpdate(s[..|s| - 1], i, x);
      assert s[i := x][..|s| - 1] == s[..|s| - 1][i := x];
    } else {
      assert s[i := x][..|s| - 1] == s[..|s| - 1];
    }
  }

  /** The card a split charges is one of the given cards, holds at least the charge, and the fee is
      that card's fee for the charge. */
  ghost predicate Covered(s: Split, cards: seq<Card>) {
    exists c :: c in cards && c.id == s.cardId && s.chargeAmount <= c.balance && s.fee == EstimateFee(s.chargeAmount, c)
  }

  /** Every split from position `k` on is covered by its card. */
  ghost predicate CoveredFrom(splits: seq<Split>, k: nat, cards: seq<Card>) {
    forall i :: k <= i < |splits| ==> Covered(splits[i], cards)
  }

  predicate AllAbove(cards: seq<Card>, bound: int) {
    forall i :: 0 <= i < |cards| ==> cards[i].balance > bound
  }

  // ---------------------------------------------------------------------------
  // Proportional split

  /** The first proposal for a card: its share of the amount by balance, rounded to the cent, no more
      than its balance or the remainder; raised to the $10 minimum when the remainder allows. */
  function ProportionalCharge(c: Card, amount: int, total: int, remaining: int): (charge: int)
    requires total > 0
    ensures charge <= remaining
    ensures c.balance >= MinSplitAmount ==> charge <= c.balance
    ensures var capped := Min(Min(RoundHalfUp(amount * c.balance, total), c.balance), remaining);
      && (remaining < MinSplitAmount ==> charge == capped)
      && (remaining >= MinSplitAmount ==> charge == if capped < MinSplitAmount then MinSplitAmount else capped)
  {
    var share := Min(Min(RoundHalfUp(amount * c.balance, total), c.balance), remaining);
    if share < MinSplitAmount && remaining >= MinSplitAmount then Min(MinSplitAmount, remaining) else share
  }

  /** When neither the balance, the remainder nor the $10 minimum intervenes, a card is charged its
      share of the amount in proportion to its balance, to the nearest cent: within half a cent of
      `amount * balance / total`. */
  lemma ProportionalChargeIsShare(c: Card, amount: int, total: int, remaining: int)
    requires total > 0
    requires MinSplitAmount <= RoundHalfUp(amount * c.balance, total) <= c.balance
    requires RoundHalfUp(amount * c.balance, total) <= remaining
    ensures var charge := ProportionalCharge(c, amount, total, remaining);
      -total <= 2 * (charge * total - amount * c.balance) <= total
  {
    var charge := ProportionalCharge(c, amount, total, remaining);
    assert charge == RoundHalfUp(amount * c.balance, total);
  }

  /** The loop of `proportionalSplit` from some card on, given the splits so far and what remains;
      it stops once nothing remains. Returns the splits and the final remainder. */
  function ProportionalScan(cards: seq<Card>, amount: int, total: int, remaining: int, acc: seq<Split>): (r: (seq<Split>, int))
    requires total > 0
    ensures |acc| <= |r.0| <= |acc| + |cards| && r.0[..|acc|] == acc
    ensures SumCharges(r.0) + r.1 == SumCharges(acc) + remaining
    ensures r.1 <= remaining && (remaining >= 0 ==> r.1 >= 0)
    decreases |cards|
  {
    if cards == [] || remaining <= 0 then (acc, remaining)
    else
      var c := cards[0];
      var charge := ProportionalCharge(c, amount, total, remaining);
      if charge >= MinSplitAmount then
        var next := acc + [SplitFor(c, charge)];
        var r := ProportionalScan(cards[1..], amount, total, remaining - charge, next);
        SumChargesAppend(acc, [SplitFor(c, charge)]);
        assert r.0[..|next|][..|acc|] == acc;
        r
      else
        ProportionalScan(cards[1..], amount, total, remaining, acc)
  }

  /** Every split from position `k` on charges at least $10. */
  predicate AtLeastMinimumFrom(splits: seq<Split>, k: nat) {
    forall i :: k <= i < |splits| ==> splits[i].chargeAmount >= MinSplitAmount
  }

  /** A step of the proportional scan that charges the first card. */
  lemma ProportionalScanTakes(cards: seq<Card>, amount: int, total: int, remaining: int, acc: seq<Split>)
    requires total > 0 && cards != [] && remaining > 0
    requires ProportionalCharge(cards[0], amount, total, remaining) >= MinSplitAmount
    ensures var charge := ProportionalCharge(cards[0], amount, total, remaining);
      var r := ProportionalScan(cards, amount, total, remaining, acc).0;
      && r == ProportionalScan(cards[1..], amount, total, remaining - charge, acc + [SplitFor(cards[0], charge)]).0
      && |acc| < |r| && r[|acc|] == SplitFor(cards[0], charge)
  {
    var charge := ProportionalCharge(cards[0], amount, total, remaining);
    var next := acc + [SplitFor(cards[0], charge)];
    var r := ProportionalScan(cards[1..], amount, total, remaining - charge, next).0;
    assert r[|acc|] == r[..|next|][|acc|];
  }

  /** A step of the proportional scan that passes over the first card. */
  lemma ProportionalScanSkips(cards: seq<Card>, amount: int, total: int, remaining: int, acc: seq<Split>)
    requires total > 0 && cards != [] && remaining > 0
    requires ProportionalCharge(cards[0], amount, total, remaining) < MinSplitAmount
    ensures ProportionalScan(cards, amount, total, remaining, acc).0 == ProportionalScan(cards[1..], amount, total, remaining, acc).0
  {
  }

  /** Every split the scan adds charges at least $10. */
  lemma {:induction false} ProportionalScanMinimum(cards: seq<Card>, amount: int, total: int, remaining: int, acc: seq<Split>)
    requires total > 0
    ensures AtLeastMinimumFrom(ProportionalScan(cards, amount, total, remaining, acc).0, |acc|)
    decreases |cards|
  {
    if cards != [] && remaining > 0 {
      var charge := ProportionalCharge(cards[0], amount, total, remaining);
      if charge >= MinSplitAmount {
        var r := ProportionalScan(cards, amount, total, remaining, acc).0;
        ProportionalScanTakes(cards, amount, total, remaining, acc);
        ProportionalScanMinimum(cards[1..], amount, total, remaining - charge, acc + [SplitFor(cards[0], charge)]);
        MinimumFromMore(r, |acc|);
      } else {
        ProportionalScanSkips(cards, amount, total, remaining, acc);
        ProportionalScanMinimum(cards[1..], amount, total, remaining, acc);
      }
    }
  }

  lemma CoveredByMore(s: Split, cards: seq<Card>)
    requires cards != [] && Covered(s, cards[1..])
    ensures Covered(s, cards)
  {
    var c :| c in cards[1..] && c.id == s.cardId && s.chargeAmount <= c.balance && s.fee == EstimateFee(s.chargeAmount, c);
    assert c in cards;
  }

  /** When every card holds more than $10, every split the scan adds is covered by its card. */
  lemma {:induction false} ProportionalScanCovered(cards: seq<Card>, amount: int, total: int, remaining: int, acc: seq<Split>)
    requires total > 0 && AllAbove(cards, MinSplitAmount)
    ensures CoveredFrom(ProportionalScan(cards, amount, total, remaining, acc).0, |acc|, cards)
    decreases |cards|
  {
    if cards != [] && remaining > 0 {
      var c := cards[0];
      var charge := ProportionalCharge(c, amount, total, remaining);
      var r := ProportionalScan(cards, amount, total, remaining, acc).0;
      if charge >= MinSplitAmount {
        ProportionalScanTakes(cards, amount, total, remaining, acc);
        ProportionalScanCovered(cards[1..], amount, total, remaining - charge, acc + [SplitFor(c, charge)]);
        assert Covered(r[|acc|], cards) by {
          assert c in cards;
        }
        CoveredFromMore(r, |acc| + 1, cards);
      } else {
        ProportionalScanSkips(cards, amount, total, remaining, acc);
        ProportionalScanCovered(cards[1..], amount, total, remaining, acc);
        CoveredFromMore(r, |acc|, cards);
      }
    }
  }

  /** With less than $10 left no card can be charged, so the scan adds nothing. */
  lemma {:induction false} ProportionalScanBelowMinimum(cards: seq<Card>, amount: int, total: int, remaining: int, acc: seq<Split>)
    requires total > 0 && remaining < MinSplitAmount
    ensures ProportionalScan(cards, amount, total, remaining, acc) == (acc, remaining)
    decreases |cards|
  {
    if cards != [] && remaining > 0 {
      ProportionalScanBelowMinimum(cards[1..], amount, total, remaining, acc);
    }
  }

  lemma {:induction false} SumBalancesPositive(cards: seq<Card>)
    requires cards != [] && AllAbove(cards, MinSplitAmount)
    ensures SumBalances(cards) > 0
    decreases |cards|
  {
    if |cards| > 1 {
      SumBalancesPositive(cards[..|cards| - 1]);
    }
  }

  /** The rounding fix-up of `proportionalSplit`: what is left is added to the first split, whose fee
      is recomputed with the first card. */
  function TopUp(splits: seq<Split>, remaining: int, first: Card): (r: seq<Split>)
    ensures |r| == |splits|
    ensures remaining > 0 && |splits| > 0 ==>
      r == splits[0 := splits[0].(chargeAmount := splits[0].chargeAmount + remaining,
                                  fee := EstimateFee(splits[0].chargeAmount + remaining, first))]
    ensures !(remaining > 0 && |splits| > 0) ==> r == splits
  {
    if remaining > 0 && |splits| > 0 then
      var charge := splits[0].chargeAmount + remaining;
      splits[0 := splits[0].(chargeAmount := charge, fee := EstimateFee(charge, first))]
    else splits
  }

  /** `proportionalSplit` on the usable cards (each above $10, at least one of them). */
  function ProportionalResult(cards: seq<Card>, amount: int): (r: Strategy)
    requires cards != [] && AllAbove(cards, MinSplitAmount)
    ensures r.strategy == "proportional" && r.totalFees == SumFees(r.splits)
  {
    SumBalancesPositive(cards);
    var scan := ProportionalScan(cards, amount, SumBalances(cards), amount, []);
    var splits := TopUp(scan.0, scan.1, cards[0]);
    Strategy(|scan.0| > 0 && scan.1 <= 1, "proportional", splits, SumFees(splits))
  }

  /** The proportional split never uses more splits than cards, charges at least $10 per split, and
      every split after the first (the one the fix-up may raise) is covered by its card. */
  lemma ProportionalSplitsBounded(cards: seq<Card>, amount: int)
    requires cards != [] && AllAbove(cards, MinSplitAmount)
    ensures var r := ProportionalResult(cards, amount);
      |r.splits| <= |cards| && AtLeastMinimumFrom(r.splits, 0) && CoveredFrom(r.splits, 1, cards)
  {
    SumBalancesPositive(cards);
    var total := SumBalances(cards);
    var scan := ProportionalScan(cards, amount, total, amount, []);
    var r := ProportionalResult(cards, amount);
    ProportionalScanMinimum(cards, amount, total, amount, []);
    ProportionalScanCovered(cards, amount, total, amount, []);
    assert forall i :: 1 <= i < |r.splits| ==> r.splits[i] == scan.0[i];
  }

  /** Whenever the proportional split charges anything it charges exactly the amount, and its first
      split is on the first card, so the fix-up's fee is that split's own card's fee. */
  lemma ProportionalChargesAmount(cards: seq<Card>, amount: int)
    requires cards != [] && AllAbove(cards, MinSplitAmount)
    ensures var r := ProportionalResult(cards, amount);
      && (|r.splits| > 0 ==> SumCharges(r.splits) == amount && r.splits[0].cardId == cards[0].id)
      && (r.possible ==> SumCharges(r.splits) == amount)
  {
    SumBalancesPositive(cards);
    var total := SumBalances(cards);
    var scan := ProportionalScan(cards, amount, total, amount, []);
    var r := ProportionalResult(cards, amount);
    if |scan.0| > 0 {
      assert amount > 0;
      var charge := ProportionalCharge(cards[0], amount, total, amount);
      if charge < MinSplitAmount {
        ProportionalScanBelowMinimum(cards[1..], amount, total, amount, []);
        assert false;
      }
      var next := [SplitFor(cards[0], charge)];
      assert scan == ProportionalScan(cards[1..], amount, total, amount - charge, next);
      assert scan.0[0] == scan.0[..1][0] == SplitFor(cards[0], charge);
      if scan.1 > 0 {
        SumChargesUpdate(scan.0, 0, r.splits[0]);
      }
    }
  }

  /** `proportionalSplit` as the source runs it: the loop, then the fix-up of the first split. */
  method ProportionalSplit(cards: seq<Card>, amount: int) returns (r: Strategy)
    requires cards != [] && AllAbove(cards, MinSplitAmount)
    ensures r == ProportionalResult(cards, amount)
  {
    SumBalancesPositive(cards);
    var totalBalance := SumBalances(cards);
    var splits: seq<Split> := [];
    var remaining := amount;
    var i := 0;
    while i < |cards|
      invariant 0 <= i <= |cards|
      invariant ProportionalScan(cards[i..], amount, totalBalance, remaining, splits) == ProportionalScan(cards, amount, totalBalance, amount, [])
    {
      if remaining <= 0 {
        break;
      }
      assert cards[i..][1..] == cards[i + 1..];
      var chargeAmount := ProportionalCharge(cards[i], amount, totalBalance, remaining);
      if chargeAmount >= MinSplitAmount {
        splits := splits + [SplitFor(cards[i], chargeAmount)];
        remaining := remaining - chargeAmount;
      }
      i := i + 1;
    }
    assert cards[i..] == [] || remaining <= 0;
    assert (splits, remaining) == ProportionalScan(cards, amount, totalBalance, amount, []);
    ghost var scanned := splits;
    var remainder := remaining;
    if remaining > 0 && |splits| > 0 {
      var charge := splits[0].chargeAmount + remaining;
      splits := splits[0 := splits[0].(chargeAmount := charge)];
      splits := splits[0 := splits[0].(fee := EstimateFee(splits[0].chargeAmount, cards[0]))];
    }
    assert splits == TopUp(scanned, remainder, cards[0]);
    return Strategy(|splits| > 0 && remainder <= 1, "proportional", splits, SumFees(splits));
  }

  // ---------------------------------------------------------------------------
  // Fee-optimal split

  function FeeKey(c: Card): real {
    FeeRate(c) as real
  }

  /** The loop of `feeOptimalSplit` from some card on: each card is charged the smaller of its balance
      and the remainder when that is at least $10; it stops when nothing remains or four splits exist. */
  function FeeOptimalScan(cards: seq<Card>, remaining: int, acc: seq<Split>): (r: (seq<Split>, int))
    ensures |acc| <= |r.0| <= |acc| + |cards| && r.0[..|acc|] == acc
    ensures |acc| <= MaxCardsPerTransaction ==> |r.0| <= MaxCardsPerTransaction
    ensures SumCharges(r.0) + r.1 == SumCharges(acc) + remaining
    ensures r.1 <= remaining && (remaining >= 0 ==> r.1 >= 0)
    decreases |cards|
  {
    if cards == [] || remaining <= 0 || |acc| >= MaxCardsPerTransaction then (acc, remaining)
    else
      var charge := Min(cards[0].balance, remaining);
      if charge >= MinSplitAmount then
        var next := acc + [SplitFor(cards[0], charge)];
        var r := FeeOptimalScan(cards[1..], remaining - charge, next);
        SumChargesAppend(acc, [SplitFor(cards[0], charge)]);
        assert r.0[..|next|][..|acc|] == acc;
        r
      else
        FeeOptimalScan(cards[1..], remaining, acc)
  }

  /** A step of the fee-optimal scan that charges the first card. */
  lemma FeeOptimalScanTakes(cards: seq<Card>, remaining: int, acc: seq<Split>)
    requires cards != [] && remaining > 0 && |acc| < MaxCardsPerTransaction
    requires Min(cards[0].balance, remaining) >= MinSplitAmount
    ensures var charge := Min(cards[0].balance, remaining);
      var r := FeeOptimalScan(cards, remaining, acc).0;
      && r == FeeOptimalScan(cards[1..], remaining - charge, acc + [SplitFor(cards[0], charge)]).0
      && |acc| < |r| && r[|acc|] == SplitFor(cards[0], charge)
  {
    var charge := Min(cards[0].balance, remaining);
    var next := acc + [SplitFor(cards[0], charge)];
    var r := FeeOptimalScan(cards[1..], remaining - charge, next).0;
    assert r[|acc|] == r[..|next|][|acc|];
  }

  /** A step of the fee-optimal scan that passes over the first card. */
  lemma FeeOptimalScanSkips(cards: seq<Card>, remaining: int, acc: seq<Split>)
    requires cards != [] && remaining > 0 && |acc| < MaxCardsPerTransaction
    requires Min(cards[0].balance, remaining) < MinSplitAmount
    ensures FeeOptimalScan(cards, remaining, acc).0 == FeeOptimalScan(cards[1..], remaining, acc).0
  {
  }

  /** Every fee-optimal split charges at least $10. */
  lemma {:induction false} FeeOptimalScanMinimum(cards: seq<Card>, remaining: int, acc: seq<Split>)
    ensures AtLeastMinimumFrom(FeeOptimalScan(cards, remaining, acc).0, |acc|)
    decreases |cards|
  {
    if cards != [] && remaining > 0 && |acc| < MaxCardsPerTransaction {
      var charge := Min(cards[0].balance, remaining);
      if charge >= MinSplitAmount {
        var r := FeeOptimalScan(cards, remaining, acc).0;
        FeeOptimalScanTakes(cards, remaining, acc);
        FeeOptimalScanMinimum(cards[1..], remaining - charge, acc + [SplitFor(cards[0], charge)]);
        MinimumFromMore(r, |acc|);
      } else {
        FeeOptimalScanSkips(cards, remaining, acc);
        FeeOptimalScanMinimum(cards[1..], remaining, acc);
      }
    }
  }

  /** A split of at least $10 in front of such splits extends the run. */
  lemma MinimumFromMore(r: seq<Split>, k: nat)
    requires k < |r| && r[k].chargeAmount >= MinSplitAmount && AtLeastMinimumFrom(r, k + 1)
    ensures AtLeastMinimumFrom(r, k)
  {
  }

  /** Every fee-optimal split charges at most its card's balance, with that card's fee. */
  lemma {:induction false} FeeOptimalScanCovered(cards: seq<Card>, remaining: int, acc: seq<Split>)
    ensures CoveredFrom(FeeOptimalScan(cards, remaining, acc).0, |acc|, cards)
    decreases |cards|
  {
    if cards != [] && remaining > 0 && |acc| < MaxCardsPerTransaction {
      var c := cards[0];
      var charge := Min(c.balance, remaining);
      var r := FeeOptimalScan(cards, remaining, acc).0;
      if charge >= MinSplitAmount {
        FeeOptimalScanTakes(cards, remaining, acc);
        FeeOptimalScanCovered(cards[1..], remaining - charge, acc + [SplitFor(c, charge)]);
        assert Covered(r[|acc|], cards) by {
          assert c in cards;
        }
        CoveredFromMore(r, |acc| + 1, cards);
      } else {
        FeeOptimalScanSkips(cards, remaining, acc);
        FeeOptimalScanCovered(cards[1..], remaining, acc);
        CoveredFromMore(r, |acc|, cards);
      }
    }
  }

  /** Splits covered by the cards after the first are covered by all the cards; with `k` one past a
      covered split, the coverage extends back to that split. */
  lemma CoveredFromMore(r: seq<Split>, k: nat, cards: seq<Card>)
    requires cards != [] && CoveredFrom(r, k, cards[1..])
    ensures CoveredFrom(r, k, cards)
    ensures k >= 1 && k - 1 < |r| && Covered(r[k - 1], cards) ==> CoveredFrom(r, k - 1, cards)
  {
    forall i | k <= i < |r| ensures Covered(r[i], cards) {
      CoveredByMore(r[i], cards);
    }
  }

  /** The fee rate of the card a split charges, from the type the split records. */
  function SplitRate(s: Split): nat {
    TypeRate(s.cardType)
  }

  predicate RatesAscending(splits: seq<Split>) {
    forall i, j :: 0 <= i < j < |splits| ==> SplitRate(splits[i]) <= SplitRate(splits[j])
  }

  /** Over cards sorted by fee rate, the scan adds splits in ascending order of rate. */
  lemma {:induction false} FeeOptimalScanAscending(cards: seq<Card>, remaining: int, acc: seq<Split>)
    requires SortedBy(cards, FeeKey) && RatesAscending(acc)
    requires forall i, k :: 0 <= i < |acc| && 0 <= k < |cards| ==> SplitRate(acc[i]) <= FeeRate(cards[k])
    ensures RatesAscending(FeeOptimalScan(cards, remaining, acc).0)
    decreases |cards|
  {
    if cards != [] && remaining > 0 && |acc| < MaxCardsPerTransaction {
      var c, rest := cards[0], cards[1..];
      var charge := Min(c.balance, remaining);
      assert SortedBy(rest, FeeKey) by {
        forall i, j | 0 <= i < j < |rest| ensures FeeKey(rest[i]) <= FeeKey(rest[j]) {
          assert rest[i] == cards[i + 1] && rest[j] == cards[j + 1];
        }
      }
      if charge >= MinSplitAmount {
        FeeOptimalScanTakes(cards, remaining, acc);
        var next := acc + [SplitFor(c, charge)];
        assert SplitRate(next[|acc|]) == FeeRate(c);
        assert RatesAscending(next) by {
          forall i, j | 0 <= i < j < |next| ensures SplitRate(next[i]) <= SplitRate(next[j]) {
            if j < |acc| {
              assert next[i] == acc[i] && next[j] == acc[j];
            } else {
              assert next[i] == acc[i];
            }
          }
        }
        forall i, k | 0 <= i < |next| && 0 <= k < |rest| ensures SplitRate(next[i]) <= FeeRate(rest[k]) {
          assert rest[k] == cards[k + 1];
          assert FeeKey(cards[0]) <= FeeKey(cards[k + 1]);
          if i < |acc| {
            assert next[i] == acc[i];
          }
        }
        FeeOptimalScanAscending(rest, remaining - charge, next);
      } else {
        FeeOptimalScanSkips(cards, remaining, acc);
        forall i, k | 0 <= i < |acc| && 0 <= k < |rest| ensures SplitRate(acc[i]) <= FeeRate(rest[k]) {
          assert rest[k] == cards[k + 1];
        }
        FeeOptimalScanAscending(rest, remaining, acc);
      }
    }
  }

  /** `feeOptimalSplit`: the scan over the cards in ascending order of fee rate (a stable sort). */
  function FeeOptimalResult(cards: seq<Card>, amount: int): (r: Strategy)
    ensures r.strategy == "fee-optimal" && r.totalFees == SumFees(r.splits)
    ensures r.possible <==> SumCharges(r.splits) >= amount - 1
    ensures |r.splits| <= MaxCardsPerTransaction
  {
    var scan := FeeOptimalScan(SortBy(cards, FeeKey), amount, []);
    Strategy(scan.1 <= 1, "fee-optimal", scan.0, SumFees(scan.0))
  }

  /** The fee-optimal split charges at least $10 per split, never more than the card holds, and its
      splits come in ascending order of fee rate. */
  lemma FeeOptimalProperties(cards: seq<Card>, amount: int)
    ensures var r := FeeOptimalResult(cards, amount);
      && AtLeastMinimumFrom(r.splits, 0)
      && CoveredFrom(r.splits, 0, cards)
      && RatesAscending(r.splits)
  {
    var sorted := SortBy(cards, FeeKey);
    SortBySortedPermutation(cards, FeeKey);
    FeeOptimalScanAscending(sorted, amount, []);
    FeeOptimalScanMinimum(sorted, amount, []);
    FeeOptimalScanCovered(sorted, amount, []);
    var r := FeeOptimalResult(cards, amount);
    forall i | 0 <= i < |r.splits| ensures Covered(r.splits[i], cards) {
      var c :| c in sorted && c.id == r.splits[i].cardId && r.splits[i].chargeAmount <= c.balance
               && r.splits[i].fee == EstimateFee(r.splits[i].chargeAmount, c);
      assert c in multiset(sorted);
    }
  }

  /** `feeOptimalSplit` as the source runs it: sort, then the loop with its two exits. */
  method FeeOptimalSplit(cards: seq<Card>, amount: int) returns (r: Strategy)
    ensures r == FeeOptimalResult(cards, amount)
  {
    var cardsByFeeRate := SortBy(cards, FeeKey);
    var splits: seq<Split> := [];
    var remaining := amount;
    var i := 0;
    while i < |cardsByFeeRate|
      invariant 0 <= i <= |cardsByFeeRate|
      invariant FeeOptimalScan(cardsByFeeRate[i..], remaining, splits) == FeeOptimalScan(cardsByFeeRate, amount, [])
    {
      if remaining <= 0 {
        break;
      }
      if |splits| >= MaxCardsPerTransaction {
        break;
      }
      assert cardsByFeeRate[i..][1..] == cardsByFeeRate[i + 1..];
      var card := cardsByFeeRate[i];
      var chargeAmount := Min(card.balance, remaining);
      if chargeAmount >= MinSplitAmount {
        splits := splits + [SplitFor(card, chargeAmount)];
        remaining := remaining - chargeAmount;
      }
      i := i + 1;
    }
    return Strategy(remaining <= 1, "fee-optimal", splits, SumFees(splits));
  }

  // ---------------------------------------------------------------------------
  // Equal split

  /** The cards holding at least $10, in order. */
  function EqualEligible(cards: seq<Card>): (r: seq<Card>)
    ensures |r| <= |cards|
    ensures forall i :: 0 <= i < |r| ==> r[i].balance >= MinSplitAmount && r[i] in cards
    ensures forall c :: c in cards && c.balance >= MinSplitAmount ==> c in r
  {
    if cards == [] then []
    else
      var init := EqualEligible(cards[..|cards| - 1]);
      var c := cards[|cards| - 1];
      assert cards == cards[..|cards| - 1] + [c];
      if c.balance >= MinSplitAmount then init + [c] else init
  }

  /** The intended charge of the card at position `i`: the first card absorbs the remainder. */
  function EqualCharge(i: nat, base: int, remainder: int): int {
    if i == 0 then base + remainder else base
  }

  /** The splits of `equalSplit`: one per card, except that a charge above the card's balance is dropped. */
  function EqualParts(cs: seq<Card>, base: int, remainder: int): (r: seq<Split>)
    ensures |r| <= |cs|
  {
    if cs == [] then []
    else
      var i := |cs| - 1;
      var charge := EqualCharge(i, base, remainder);
      EqualParts(cs[..i], base, remainder) + (if charge > cs[i].balance then [] else [SplitFor(cs[i], charge)])
  }

  /** Every card can take its intended charge. */
  predicate AllFit(cs: seq<Card>, base: int, remainder: int) {
    forall i :: 0 <= i < |cs| ==> EqualCharge(i, base, remainder) <= cs[i].balance
  }

  /** The sum of the intended charges. */
  function IntendedTotal(n: nat, base: int, remainder: int): int {
    if n == 0 then 0 else IntendedTotal(n - 1, base, remainder) + EqualCharge(n - 1, base, remainder)
  }

  lemma {:induction false} IntendedTotalValue(n: nat, base: int, remainder: int)
    requires n >= 1
    ensures IntendedTotal(n, base, remainder) == base * n + remainder
  {
    if n > 1 {
      IntendedTotalValue(n - 1, base, remainder);
    }
  }

  lemma SumChargesSnoc(s: seq<Split>, x: Split)
    ensures SumCharges(s + [x]) == SumCharges(s) + x.chargeAmount
  {
    assert (s + [x])[..|s|] == s;
  }

  /** When every card takes its charge, the splits total the intended charges. */
  lemma {:induction false} EqualPartsFit(cs: seq<Card>, base: int, remainder: int)
    requires AllFit(cs, base, remainder)
    ensures SumCharges(EqualParts(cs, base, remainder)) == IntendedTotal(|cs|, base, remainder)
  {
    if cs != [] {
      var i := |cs| - 1;
      var init := cs[..i];
      assert AllFit(init, base, remainder) by {
        forall j | 0 <= j < |init| ensures EqualCharge(j, base, remainder) <= init[j].balance {
          assert init[j] == cs[j];
        }
      }
      EqualPartsFit(init, base, remainder);
      assert EqualCharge(i, base, remainder) <= cs[i].balance;
      SumChargesSnoc(EqualParts(init, base, remainder), SplitFor(cs[i], EqualCharge(i, base, remainder)));
    }
  }

  /** Dropping a charge that exceeds a non-negative balance only lowers the total. */
  lemma {:induction false} EqualPartsAtMost(cs: seq<Card>, base: int, remainder: int)
    requires forall i :: 0 <= i < |cs| ==> cs[i].balance >= 0
    ensures SumCharges(EqualParts(cs, base, remainder)) <= IntendedTotal(|cs|, base, remainder)
  {
    if cs != [] {
      var i := |cs| - 1;
      var init := cs[..i];
      EqualPartsAtMost(init, base, remainder);
      var charge := EqualCharge(i, base, remainder);
      if charge <= cs[i].balance {
        SumChargesSnoc(EqualParts(init, base, remainder), SplitFor(cs[i], charge));
      } else {
        LastDropped(cs, base, remainder);
      }
    }
  }

  /** A last card that cannot take its charge adds no split. */
  lemma LastDropped(cs: seq<Card>, base: int, remainder: int)
    requires cs != [] && EqualCharge(|cs| - 1, base, remainder) > cs[|cs| - 1].balance
    ensures EqualParts(cs, base, remainder) == EqualParts(cs[..|cs| - 1], base, remainder)
  {
    var init := cs[..|cs| - 1];
    assert EqualParts(cs, base, remainder) == EqualParts(init, base, remainder) + [];
    assert EqualParts(init, base, remainder) + [] == EqualParts(init, base, remainder);
  }

  /** When some card cannot take its charge but the last can, some earlier card cannot. */
  lemma MisfitBeforeLast(cs: seq<Card>, base: int, remainder: int)
    requires !AllFit(cs, base, remainder) && cs != []
    requires EqualCharge(|cs| - 1, base, remainder) <= cs[|cs| - 1].balance
    ensures !AllFit(cs[..|cs| - 1], base, remainder)
  {
    var init := cs[..|cs| - 1];
    var j :| 0 <= j < |cs| && EqualCharge(j, base, remainder) > cs[j].balance;
    assert j < |cs| - 1 && init[j] == cs[j];
  }

  /** When some card cannot take its charge, the splits fall short of the intended total. */
  lemma {:induction false} EqualPartsShort(cs: seq<Card>, base: int, remainder: int)
    requires forall i :: 0 <= i < |cs| ==> cs[i].balance >= 0
    requires !AllFit(cs, base, remainder)
    ensures SumCharges(EqualParts(cs, base, remainder)) < IntendedTotal(|cs|, base, remainder)
  {
    var i := |cs| - 1;
    var init := cs[..i];
    var charge := EqualCharge(i, base, remainder);
    assert IntendedTotal(|cs|, base, remainder) == IntendedTotal(i, base, remainder) + charge;
    assert forall k :: 0 <= k < |init| ==> init[k].balance >= 0 by {
      assert forall k :: 0 <= k < |init| ==> init[k] == cs[k];
    }
    if charge <= cs[i].balance {
      assert SumCharges(EqualParts(init, base, remainder)) < IntendedTotal(i, base, remainder) by {
        MisfitBeforeLast(cs, base, remainder);
        EqualPartsShort(init, base, remainder);
      }
      LastTaken(cs, base, remainder);
    } else {
      assert SumCharges(EqualParts(init, base, remainder)) <= IntendedTotal(i, base, remainder) by {
        EqualPartsAtMost(init, base, remainder);
      }
      LastDropped(cs, base, remainder);
    }
  }

  /** A last card that can take its charge adds exactly that charge. */
  lemma LastTaken(cs: seq<Card>, base: int, remainder: int)
    requires cs != [] && EqualCharge(|cs| - 1, base, remainder) <= cs[|cs| - 1].balance
    ensures SumCharges(EqualParts(cs, base, remainder)) ==
      SumCharges(EqualParts(cs[..|cs| - 1], base, remainder)) + EqualCharge(|cs| - 1, base, remainder)
  {
    var i := |cs| - 1;
    SumChargesSnoc(EqualParts(cs[..i], base, remainder), SplitFor(cs[i], EqualCharge(i, base, remainder)));
  }

  /** How many cards `equalSplit` uses: the eligible ones, at most four. */
  function EqualCardCount(cards: seq<Card>): (n: nat)
    ensures n <= MaxCardsPerTransaction && n <= |EqualEligible(cards)|
    ensures n == 0 <==> EqualEligible(cards) == []
  {
    Min(|EqualEligible(cards)|, MaxCardsPerTransaction)
  }

  /** The share of each card, rounded down to the cent. */
  function EqualBase(amount: int, n: int): int
    requires 1 <= n <= MaxCardsPerTransaction
  {
    amount / n
  }

  /** Rounding the share down to the cent leaves less than one cent per card. */
  lemma RemainderBelowCards(amount: int, n: int)
    requires 1 <= n <= MaxCardsPerTransaction
    ensures 0 <= amount - (amount / n) * n < n
  {
    if n == 1 {
    } else if n == 2 {
      assert amount == 2 * (amount / 2) + amount % 2;
    } else if n == 3 {
      assert amount == 3 * (amount / 3) + amount % 3;
    } else {
      assert amount == 4 * (amount / 4) + amount % 4;
    }
  }

  /** What rounding the share down leaves over: less than one cent per card. */
  function EqualRemainder(amount: int, n: int): (r: int)
    requires 1 <= n <= MaxCardsPerTransaction
    ensures 0 <= r < n
    ensures EqualBase(amount, n) * n + r == amount
  {
    RemainderBelowCards(amount, n);
    amount - EqualBase(amount, n) * n
  }

  /** `equalSplit`: the amount divided over at most four cards holding at least $10, rounded down to
      the cent, with the remainder on the first card; possible when the kept charges total the amount. */
  function EqualResult(cards: seq<Card>, amount: int): (r: Strategy)
    ensures r.strategy == "equal" && r.totalFees == SumFees(r.splits)
    ensures |r.splits| <= MaxCardsPerTransaction
    ensures EqualEligible(cards) == [] ==> !r.possible && r.splits == []
    ensures EqualEligible(cards) != [] ==> (r.possible <==> SumCharges(r.splits) == amount)
  {
    var numCards := EqualCardCount(cards);
    if numCards == 0 then Strategy(false, "equal", [], 0)
    else
      var baseAmount := EqualBase(amount, numCards);
      var remainder := EqualRemainder(amount, numCards);
      var splits := EqualParts(EqualEligible(cards)[..numCards], baseAmount, remainder);
      var totalCharged := SumCharges(splits);
      Strategy(totalCharged == amount, "equal", splits, SumFees(splits))
  }

  /** With at least one card of $10 or more, the equal split is possible exactly when every card can
      take its share. */
  lemma EqualPossibleIff(cards: seq<Card>, amount: int)
    requires EqualEligible(cards) != []
    ensures EqualResult(cards, amount).possible <==>
      AllFit(EqualEligible(cards)[..EqualCardCount(cards)], EqualBase(amount, EqualCardCount(cards)),
             EqualRemainder(amount, EqualCardCount(cards)))
  {
    var eligible := EqualEligible(cards);
    var n := EqualCardCount(cards);
    var base := EqualBase(amount, n);
    var remainder := EqualRemainder(amount, n);
    var cs := eligible[..n];
    assert forall i :: 0 <= i < |cs| ==> cs[i].balance >= 0 by {
      forall i | 0 <= i < |cs| ensures cs[i].balance >= 0 {
        assert cs[i] == eligible[i];
      }
    }
    IntendedTotalValue(n, base, remainder);
    if AllFit(cs, base, remainder) {
      EqualPartsFit(cs, base, remainder);
    } else {
      EqualPartsShort(cs, base, remainder);
    }
  }
  // ---------------------------------------------------------------------------
  // Choosing a strategy

  /** `strategies.filter(s => s.possible).reduce(...)`: the position of the first possible strategy
      of least total fees, if any is possible (a later one replaces the best only when strictly cheaper). */
  function CheapestIndex(s: seq<Strategy>): (r: Option<nat>)
    ensures r.None? <==> forall i :: 0 <= i < |s| ==> !s[i].possible
    ensures r.Some? ==> r.value < |s| && s[r.value].possible
    ensures r.Some? ==> forall i :: 0 <= i < |s| && s[i].possible ==> s[r.value].totalFees <= s[i].totalFees
    ensures r.Some? ==> forall j :: 0 <= j < r.value && s[j].possible ==> s[j].totalFees > s[r.value].totalFees
  {
    if s == [] then None
    else
      var n := |s| - 1;
      var best := CheapestIndex(s[..n]);
      assert forall i :: 0 <= i < n ==> s[..n][i] == s[i];
      if !s[n].possible then best
      else if best.None? || s[n].totalFees < s[best.value].totalFees then Some(n)
      else best
  }

  /** The cards `calculateOptimalSplit` works with: active and holding more than $10. */
  function Usable(cards: seq<Card>): (r: seq<Card>)
    ensures |r| <= |cards| && AllAbove(r, MinSplitAmount)
    ensures forall i :: 0 <= i < |r| ==> r[i].isActive && r[i] in cards
    ensures forall c :: c in cards && c.isActive && c.balance > MinSplitAmount ==> c in r
  {
    if cards == [] then []
    else
      var init := Usable(cards[..|cards| - 1]);
      var c := cards[|cards| - 1];
      assert cards == cards[..|cards| - 1] + [c];
      if c.isActive && c.balance > MinSplitAmount then init + [c] else init
  }

  /** The three candidate strategies, in the order the source compares them. */
  function Strategies(active: seq<Card>, amount: int): (s: seq<Strategy>)
    requires active != [] && AllAbove(active, MinSplitAmount)
    ensures |s| == 3 && s[0].strategy == "proportional" && s[1].strategy == "fee-optimal" && s[2].strategy == "equal"
  {
    [ProportionalResult(active, amount), FeeOptimalResult(active, amount), EqualResult(active, amount)]
  }

  /** The answer built from strategy `k` of the three. */
  function ChosenFrom(s: seq<Strategy>, k: nat): (m: MultiOption)
    requires |s| == 3 && k < 3
    ensures m.Chosen? && m.strategy == s[k].strategy && m.splits == s[k].splits && m.totalFees == s[k].totalFees
    ensures m.feesSaved == s[0].totalFees - s[k].totalFees && m.cardsUsed == |s[k].splits|
  {
    Chosen(s[k].strategy, s[k].splits, s[k].totalFees, s[0].totalFees - s[k].totalFees, |s[k].splits|)
  }

  /** The choice among the three strategies (proportional first): no valid split when none is possible,
      otherwise the first possible one of least total fees, with the savings over the proportional split. */
  function ChooseAmong(s: seq<Strategy>): (m: MultiOption)
    requires |s| == 3
    ensures m.NoValidSplit? || m.Chosen?
  {
    var best := CheapestIndex(s);
    if best.None? then NoValidSplit else ChosenFrom(s, best.value)
  }

  /** The choice is a split exactly when some strategy is possible; the split is then a possible
      strategy of least total fees, no earlier strategy is as cheap, and the savings over the
      proportional split are never negative when that one is possible. */
  lemma ChooseAmongIsCheapest(s: seq<Strategy>)
    requires |s| == 3
    ensures ChooseAmong(s).NoValidSplit? <==> forall k :: 0 <= k < 3 ==> !s[k].possible
    ensures ChooseAmong(s).Chosen? ==>
      (exists k :: 0 <= k < 3 && s[k].possible && ChooseAmong(s) == ChosenFrom(s, k)
         && (forall j :: 0 <= j < k && s[j].possible ==> s[j].totalFees > s[k].totalFees))
    ensures ChooseAmong(s).Chosen? ==> forall k :: 0 <= k < 3 && s[k].possible ==> ChooseAmong(s).totalFees <= s[k].totalFees
    ensures ChooseAmong(s).Chosen? && s[0].possible ==> ChooseAmong(s).feesSaved >= 0
  {
    var best := CheapestIndex(s);
    if best.Some? {
      assert ChooseAmong(s) == ChosenFrom(s, best.value);
    }
  }

  /** `calculateOptimalSplit`, as a function of the cards and the amount. */
  function OptimalSplit(cards: seq<Card>, amount: int): (m: MultiOption)
    ensures |Usable(cards)| < 2 <==> m.NoMultiOption?
    ensures m.Insufficient? <==> |Usable(cards)| >= 2 && SumBalances(Usable(cards)) < amount
    ensures m.Insufficient? ==> m.totalAvailable == SumBalances(Usable(cards)) && m.shortfall == amount - m.totalAvailable
    ensures m.Insufficient? ==> m.shortfall > 0
    ensures m.NoValidSplit? || m.Chosen? ==> m == ChooseAmong(Strategies(Usable(cards), amount))
  {
    var activeCards := Usable(cards);
    if |activeCards| < 2 then NoMultiOption
    else
      var totalAvailable := SumBalances(activeCards);
      if totalAvailable < amount then Insufficient(totalAvailable, amount - totalAvailable)
      else ChooseAmong(Strategies(activeCards, amount))
  }

  /** `calculateOptimalSplit` as the source runs it, calling the two strategies written with loops. */
  method CalculateOptimalSplit(cards: seq<Card>, amount: int) returns (m: MultiOption)
    ensures m == OptimalSplit(cards, amount)
  {
    var activeCards := Usable(cards);
    if |activeCards| < 2 {
      return NoMultiOption;
    }
    var totalAvailable := SumBalances(activeCards);
    if totalAvailable < amount {
      return Insufficient(totalAvailable, amount - totalAvailable);
    }
    var proportionalSplit := ProportionalSplit(activeCards, amount);
    var feeOptimalSplit := FeeOptimalSplit(activeCards, amount);
    var equalSplit := EqualResult(activeCards, amount);
    var strategies := [proportionalSplit, feeOptimalSplit, equalSplit];
    assert strategies == Strategies(activeCards, amount);
    m := ChooseAmong(strategies);
  }

  // ---------------------------------------------------------------------------
  // Single card, decision and analysis

  predicate CanPayAlone(c: Card, amount: int) {
    c.balance >= amount && c.isActive
  }

  /** `cards.find(...)` for a card that can pay alone: its position, or `|cards|` when there is none. */
  function FirstPayable(cards: seq<Card>, amount: int): (k: nat)
    ensures k <= |cards|
    ensures k < |cards| ==> CanPayAlone(cards[k], amount)
    ensures forall j :: 0 <= j < k ==> !CanPayAlone(cards[j], amount)
  {
    if cards == [] then 0
    else if CanPayAlone(cards[0], amount) then 0
    else
      var k := FirstPayable(cards[1..], amount);
      assert forall j :: 1 <= j < k + 1 ==> cards[j] == cards[1..][j - 1];
      k + 1
  }

  /** The single-card option built for card `c`. */
  function SingleOptionFor(c: Card, amount: int): (o: SingleOption)
    ensures o.cardId == c.id && o.balance == c.balance && o.chargeAmount == amount
    ensures o.estimatedFee == EstimateFee(amount, c) && o.remainingBalance == c.balance - amount
  {
    SingleOption(c.id, c.last4, c.cardType, c.balance, amount, EstimateFee(amount, c), c.balance - amount)
  }

  /** `findSingleCardOption`: the first active card whose balance covers the amount. */
  function FindSingleCardOption(cards: seq<Card>, amount: int): (r: Option<SingleOption>)
    ensures r.None? <==> forall i :: 0 <= i < |cards| ==> !CanPayAlone(cards[i], amount)
    ensures r.Some? ==> r.value == SingleOptionFor(cards[FirstPayable(cards, amount)], amount)
    ensures r.Some? ==> r.value.remainingBalance >= 0
  {
    var k := FirstPayable(cards, amount);
    if k == |cards| then None else Some(SingleOptionFor(cards[k], amount))
  }

  /** `compareOptions`: the decision table. The amount argument of the source is unused and omitted. */
  function CompareOptions(single: Option<SingleOption>, multi: MultiOption): (r: Recommendation)
    ensures r.action == AddFunds <==> single.None? && !multi.Possible()
    ensures single.None? && multi.Possible() ==> r.action == UseMultiCard
    ensures single.Some? && !multi.Possible() ==> r.action == UseSingleCard
    ensures single.Some? && multi.Possible() ==>
      (r.action == UseMultiCard <==> multi.totalFees < single.value.estimatedFee - SavingsThreshold)
    ensures r.recommended <==> r.action == UseMultiCard
    ensures r.recommendedOption.None? <==> r.action == AddFunds
    ensures r.savings.Some? <==> (single.Some? && multi.Possible() && r.action == UseMultiCard)
    ensures r.savings.Some? ==> r.savings.value == single.value.estimatedFee - multi.totalFees > SavingsThreshold
  {
    if single.None? && !multi.Possible() then
      Recommendation(false, None, "Insufficient balance on all cards", AddFunds, None)
    else if single.None? && multi.Possible() then
      Recommendation(true, Some("multi-card"), "Single card insufficient, multi-card split required", UseMultiCard, None)
    else if single.Some? && !multi.Possible() then
      Recommendation(false, Some("single-card"), "Single card is sufficient and optimal", UseSingleCard, None)
    else
      var singleCardFee := single.value.estimatedFee;
      var multiCardFee := multi.totalFees;
      if multiCardFee < singleCardFee - SavingsThreshold then
        Recommendation(true, Some("multi-card"), "Multi-card saves $" + Dollars(singleCardFee - multiCardFee) + " in fees",
                       UseMultiCard, Some(singleCardFee - multiCardFee))
      else
        Recommendation(false, Some("single-card"), "Single card is simpler with similar fees", UseSingleCard, None)
  }

  /** An amount of cents written as dollars with two decimals (`toFixed(2)` on the dollar value). */
  function Dollars(cents: int): (s: string)
    ensures cents < 0 <==> (|s| > 0 && s[0] == '-')
  {
    ToFixed(cents as real / 100.0, 2)
  }

  /** The sort key of `sort((a, b) => b.balance - a.balance)`: descending balance, stably. */
  function BalanceDescending(c: Card): real {
    -(c.balance as real)
  }

  /** `analyzeMultiCardOption`, as a function of the amount, currency and cards. */
  function AnalysisOf(amount: int, currency: Option<string>, cards: Option<seq<Card>>): (a: Analysis)
    ensures a.NoCards? <==> cards.None? || cards.value == []
    ensures a.Analysis? ==> a.transactionAmount == amount && a.currency == currency
    ensures a.Analysis? ==>
      && a.singleCardOption == FindSingleCardOption(SortBy(cards.value, BalanceDescending), amount)
      && a.multiCardOption == OptimalSplit(SortBy(cards.value, BalanceDescending), amount)
    ensures a.Analysis? ==> a.recommendation == CompareOptions(a.singleCardOption, a.multiCardOption)
    ensures a.Analysis? ==> a.totalAvailableBalance == SumBalances(SortBy(cards.value, BalanceDescending))
  {
    if cards.None? || cards.value == [] then NoCards
    else
      var sortedCards := SortBy(cards.value, BalanceDescending);
      var single := FindSingleCardOption(sortedCards, amount);
      var multi := OptimalSplit(sortedCards, amount);
      Analysis(amount, currency, SumBalances(sortedCards), single, multi, CompareOptions(single, multi))
  }

  /** Because the cards are sorted by descending balance first, the single-card option is a card of
      the largest balance among all cards that can pay alone. */
  lemma SingleOptionIsRichest(amount: int, cards: seq<Card>, c: Card)
    requires c in cards && CanPayAlone(c, amount)
    ensures FindSingleCardOption(SortBy(cards, BalanceDescending), amount).Some?
    ensures c.balance <= FindSingleCardOption(SortBy(cards, BalanceDescending), amount).value.balance
  {
    var sorted := SortBy(cards, BalanceDescending);
    SortBySortedPermutation(cards, BalanceDescending);
    assert c in multiset(sorted);
    var j :| 0 <= j < |sorted| && sorted[j] == c;
    var k := FirstPayable(sorted, amount);
    assert k <= j;
    assert k < |sorted|;
    if k < j {
      assert BalanceDescending(sorted[k]) <= BalanceDescending(sorted[j]);
    }
  }

  /** In the analysis, any card that can pay alone leads to a single-card option, and the option's
      card holds at least as much as that card. */
  lemma AnalysisSingleIsRichest(amount: int, currency: Option<string>, cards: seq<Card>, c: Card)
    requires c in cards && CanPayAlone(c, amount)
    ensures var a := AnalysisOf(amount, currency, Some(cards));
      a.Analysis? && a.singleCardOption.Some? && c.balance <= a.singleCardOption.value.balance
  {
    SingleOptionIsRichest(amount, cards, c);
  }

  /** `analyzeMultiCardOption` as the source runs it. */
  method AnalyzeMultiCardOption(amount: int, currency: Option<string>, availableCards: Option<seq<Card>>) returns (a: Analysis)
    ensures a == AnalysisOf(amount, currency, availableCards)
  {
    if availableCards.None? || |availableCards.value| == 0 {
      return NoCards;
    }
    var sortedCards := SortBy(availableCards.value, BalanceDescending);
    var singleCardOption := FindSingleCardOption(sortedCards, amount);
    var multiCardOption := CalculateOptimalSplit(sortedCards, amount);
    var recommendation := CompareOptions(singleCardOption, multiCardOption);
    return Analysis(amount, currency, SumBalances(sortedCards), singleCardOption, multiCardOption, recommendation);
  }

  // ---------------------------------------------------------------------------
  // Execution

  /** An attempt that returned a truthy `success`. */
  predicate Succeeded(a: Attempt) {
    a.Returned? && a.success
  }

  /** The entry of `splitResults` for one split and its attempt. */
  function ResultOf(s: Split, a: Attempt): (r: SplitResult)
    ensures r.cardId == s.cardId && r.cardLast4 == s.cardLast4 && r.amount == s.chargeAmount
    ensures r.success <==> Succeeded(a)
    ensures a.Threw? ==> r.transactionId.None? && r.error == Some(a.message)
  {
    match a
    case Returned(success, transactionId, error) => SplitResult(s.cardId, s.cardLast4, s.chargeAmount, success, transactionId, error)
    case Threw(message) => SplitResult(s.cardId, s.cardLast4, s.chargeAmount, false, None, Some(message))
  }

  /** The charges of the splits whose attempt succeeded (`wanted`) or did not (`!wanted`). */
  function SumWhere(splits: seq<Split>, attempts: seq<Attempt>, wanted: bool): int
    requires |attempts| == |splits|
  {
    if splits == [] then 0
    else
      var n := |splits| - 1;
      SumWhere(splits[..n], attempts[..n], wanted) + (if Succeeded(attempts[n]) == wanted then splits[n].chargeAmount else 0)
  }

  /** Every charge is counted once, as charged or as failed. */
  lemma {:induction false} SumWhereSplits(splits: seq<Split>, attempts: seq<Attempt>)
    requires |attempts| == |splits|
    ensures SumWhere(splits, attempts, true) + SumWhere(splits, attempts, false) == SumCharges(splits)
  {
    if splits != [] {
      var n := |splits| - 1;
      SumWhereSplits(splits[..n], attempts[..n]);
    }
  }

  /** With positive charges, nothing fails exactly when every attempt succeeds. */
  lemma {:induction false} NothingFailedIff(splits: seq<Split>, attempts: seq<Attempt>)
    requires |attempts| == |splits|
    requires forall i :: 0 <= i < |splits| ==> splits[i].chargeAmount > 0
    ensures SumWhere(splits, attempts, false) >= 0
    ensures SumWhere(splits, attempts, false) == 0 <==> forall i :: 0 <= i < |attempts| ==> Succeeded(attempts[i])
  {
    if splits != [] {
      var n := |splits| - 1;
      assert forall i :: 0 <= i < n ==> splits[..n][i] == splits[i] && attempts[..n][i] == attempts[i];
      NothingFailedIff(splits[..n], attempts[..n]);
    }
  }

  /** The `summary` line of `executeSplitPayment`. */
  function Summary(success: bool, cards: nat, charged: int, failed: int): string {
    if success then "Successfully charged " + NatToString(cards) + " cards for total $" + Dollars(charged)
    else "Partial success: $" + Dollars(charged) + " charged, $" + Dollars(failed) + " failed"
  }

  /** `executeSplitPayment`: one attempt per split, in order. The payment callback is replaced by the
      attempt it yields for each split (a returned result or a thrown error). */
  method ExecuteSplitPayment(splits: seq<Split>, attempts: seq<Attempt>) returns (e: Execution)
    requires |attempts| == |splits|
    ensures |e.splitResults| == |splits|
    ensures forall i :: 0 <= i < |splits| ==> e.splitResults[i] == ResultOf(splits[i], attempts[i])
    ensures e.totalCharged == SumWhere(splits, attempts, true) && e.totalFailed == SumWhere(splits, attempts, false)
    ensures e.totalCharged + e.totalFailed == SumCharges(splits)
    ensures e.success <==> e.totalFailed == 0
    ensures e.summary == Summary(e.success, |splits|, e.totalCharged, e.totalFailed)
  {
    var results: seq<SplitResult> := [];
    var totalSuccess := 0;
    var totalFailed := 0;
    var i := 0;
    while i < |splits|
      invariant 0 <= i <= |splits|
      invariant |results| == i
      invariant forall j :: 0 <= j < i ==> results[j] == ResultOf(splits[j], attempts[j])
      invariant totalSuccess == SumWhere(splits[..i], attempts[..i], true)
      invariant totalFailed == SumWhere(splits[..i], attempts[..i], false)
    {
      var split := splits[i];
      assert splits[..i + 1][..i] == splits[..i] && attempts[..i + 1][..i] == attempts[..i];
      match attempts[i] {
        case Returned(success, transactionId, error) =>
          results := results + [SplitResult(split.cardId, split.cardLast4, split.chargeAmount, success, transactionId, error)];
          if success {
            totalSuccess := totalSuccess + split.chargeAmount;
          } else {
            totalFailed := totalFailed + split.chargeAmount;
          }
        case Threw(message) =>
          results := results + [SplitResult(split.cardId, split.cardLast4, split.chargeAmount, false, None, Some(message))];
          totalFailed := totalFailed + split.chargeAmount;
      }
      i := i + 1;
    }
    assert splits[..i] == splits && attempts[..i] == attempts;
    SumWhereSplits(splits, attempts);
    var allSuccessful := totalFailed == 0;
    return Execution(allSuccessful, totalSuccess, totalFailed, results, Summary(allSuccessful, |splits|, totalSuccess, totalFailed));
  }
}
