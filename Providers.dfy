/** Payment service providers (backend/src/psp/): the cost model of the base class
    `PaymentServiceProvider` and the configuration tables, validators and risk heuristics of
    the four adapters Stripe, Wise, PayPal and İyzico. A provider is one class whose `kind`
    selects the adapter; `Generic` is an instance of the base class itself, whose
    provider-specific operations throw. */
module Providers {
  import opened Wrappers
  import opened Formatting

  datatype Kind = Generic | Stripe | Wise | PayPal | Iyzico

  /** A commission rule; a missing field is `None`. */
  datatype CommissionRule = CommissionRule(percentage: Option<real>, fixed: Option<real>)

  /** The configuration object handed to the base constructor; a missing field is `None`.
      The constructor ignores the `isActive` field (see `Provider.FromConfig`). */
  datatype ProviderConfig = ProviderConfig(
    name: string,
    supportedCurrencies: Option<seq<string>>,
    commissionRules: Option<map<string, CommissionRule>>,
    priority: Option<real>,
    isActive: Option<bool>)

  /** What `calculateCostScore` returns. */
  datatype CostBreakdown = CostBreakdown(
    pspName: string,
    commission: real,
    fxCost: real,
    latencyPenalty: real,
    riskPenalty: real,
    totalScore: real,
    successRate: real,
    avgLatency: real)

  /** The random success gate of `processPayment`, made an input: an approval with its simulated
      latency, or a rejection after `elapsedMs` milliseconds. */
  datatype Outcome = Approved(latency: real) | Rejected(elapsedMs: nat)

  /** The fields of a successful `processPayment` result that the rest of the system reads. */
  datatype PaymentResult = PaymentResult(transactionId: string, pspName: string, amount: real, currency: Option<string>, processingTime: real)

  /** The request fields the adapters' validators read. `isLocalCard` is the truthiness of the
      request's own `isLocalCard` field, which the İyzico risk heuristic reads. */
  datatype ValidationRequest = ValidationRequest(
    cardNumber: Option<string>,
    expiryDate: Option<string>,
    cvc: Option<string>,
    amount: real,
    currency: Option<string>,
    iban: Option<string>,
    bankAccount: Option<string>,
    paypalEmail: Option<string>,
    isLocalCard: bool)

  datatype Validation =
    | CardValidation(cardBrand: string, riskScore: nat)
    | AccountValidation(accountType: string, riskLevel: string)
    | EmailValidation(accountEmail: string, riskLevel: string)
    | LocalCardValidation(cardBrand: string, isLocalCard: bool, riskScore: nat)

  /** JavaScript `x || d` on an optional number: `d` when `x` is missing or zero. */
  function OrNumber(x: Option<real>, d: real): (r: real)
    ensures d != 0.0 ==> r != 0.0
    ensures x.Some? && x.value != 0.0 ==> r == x.value
    ensures x.None? || x.value == 0.0 ==> r == d
  {
    if x.Some? && x.value != 0.0 then x.value else d
  }

  /** The `(percentage, fixed)` pair `getCommission` uses: the rule for the currency, else the
      `default` rule, else an empty rule; a falsy percentage becomes 2.9 and a falsy fixed fee 0.3. */
  function EffectiveRule(rules: map<string, CommissionRule>, currency: string): (r: (real, real))
    ensures r.0 != 0.0 && r.1 != 0.0
    ensures currency in rules ==>
      r == (OrNumber(rules[currency].percentage, 2.9), OrNumber(rules[currency].fixed, 0.3))
    ensures currency !in rules && "default" in rules ==>
      r == (OrNumber(rules["default"].percentage, 2.9), OrNumber(rules["default"].fixed, 0.3))
    ensures currency !in rules && "default" !in rules ==> r == (2.9, 0.3)
  {
    var rule := if currency in rules then rules[currency]
                else if "default" in rules then rules["default"]
                else CommissionRule(None, None);
    (OrNumber(rule.percentage, 2.9), OrNumber(rule.fixed, 0.3))
  }

  /** The default FX markup table, in percent. */
  function FxMarkup(fromCurrency: string, toCurrency: string): (m: real)
    ensures 1.5 <= m <= 2.5
    ensures m == 2.5 <==> fromCurrency == "TRY" && toCurrency in {"USD", "EUR"}
    ensures m == 1.5 <==> (fromCurrency, toCurrency) in {("USD", "EUR"), ("EUR", "USD")}
  {
    var key := fromCurrency + "-" + toCurrency;
    PairKeyMatches(fromCurrency, toCurrency, "TRY", "USD");
    PairKeyMatches(fromCurrency, toCurrency, "TRY", "EUR");
    PairKeyMatches(fromCurrency, toCurrency, "USD", "EUR");
    PairKeyMatches(fromCurrency, toCurrency, "EUR", "USD");
    if key == "TRY-USD" then 2.5
    else if key == "TRY-EUR" then 2.5
    else if key == "USD-EUR" then 1.5
    else if key == "EUR-USD" then 1.5
    else 2.0
  }

  /** `Math.min(risk, limit)`. */
  function Cap(risk: nat, limit: nat): (r: nat)
    ensures r <= limit && r <= risk && (r == risk || r == limit)
  {
    if risk < limit then risk else limit
  }

  // ---------------------------------------------------------------------------
  // Adapter configuration tables

  function KindName(k: Kind): string
    requires k != Generic
  {
    match k
    case Stripe => "Stripe"
    case Wise => "Wise"
    case PayPal => "PayPal"
    case Iyzico => "İyzico"
  }

  function Currencies(k: Kind): seq<string>
    requires k != Generic
  {
    match k
    case Stripe => ["USD", "EUR", "GBP", "JPY", "AUD", "CAD"]
    case Wise => ["USD", "EUR", "GBP", "AUD", "CAD", "JPY", "CHF", "SEK", "NZD", "TRY"]
    case PayPal => ["USD", "EUR", "GBP", "JPY", "AUD", "CAD", "CHF", "CNY", "CZK", "DKK", "HUF", "INR",
                    "ILS", "MXN", "MYR", "NOK", "NZD", "PHP", "PLN", "SGD", "SEK", "THB", "TRY", "TWD"]
    case Iyzico => ["TRY", "USD", "EUR"]
  }

  function Rule(percentage: real, fixed: real): CommissionRule {
    CommissionRule(Some(percentage), Some(fixed))
  }

  function Rules(k: Kind): map<string, CommissionRule>
    requires k != Generic
  {
    match k
    case Stripe => map["USD" := Rule(2.9, 0.3), "EUR" := Rule(2.9, 0.3), "default" := Rule(2.9, 0.3)]
    case Wise => map["USD" := Rule(1.5, 0.5), "EUR" := Rule(1.5, 0.5), "GBP" := Rule(1.5, 0.5),
                     "TRY" := Rule(1.2, 0.3), "default" := Rule(1.5, 0.5)]
    case PayPal => map["USD" := Rule(3.49, 0.49), "EUR" := Rule(3.49, 0.35), "GBP" := Rule(3.49, 0.35),
                       "TRY" := Rule(4.5, 1.0), "default" := Rule(3.49, 0.49)]
    case Iyzico => map["TRY" := Rule(2.45, 0.25), "USD" := Rule(2.9, 0.3), "EUR" := Rule(2.9, 0.3),
                       "default" := Rule(2.9, 0.3)]
  }

  function AdapterConfig(k: Kind): ProviderConfig
    requires k != Generic
  {
    var priority := match k
      case Stripe => 80.0
      case Wise => 85.0
      case PayPal => 70.0
      case Iyzico => 90.0;
    ProviderConfig(KindName(k), Some(Currencies(k)), Some(Rules(k)), Some(priority), None)
  }

  /** The latency each adapter's constructor sets after the base constructor ran. */
  function InitialLatency(k: Kind): real
    requires k != Generic
  {
    match k
    case Stripe => 600.0
    case Wise => 300.0
    case PayPal => 900.0
    case Iyzico => 350.0
  }

  /** The commission each adapter charges, per currency, written out as the adapters document it. */
  function AdapterCommission(k: Kind, currency: string): (real, real)
    requires k != Generic
  {
    match k
    case Stripe => (2.9, 0.3)
    case Wise => if currency == "TRY" then (1.2, 0.3) else (1.5, 0.5)
    case PayPal =>
      if currency == "TRY" then (4.5, 1.0)
      else if currency == "EUR" || currency == "GBP" then (3.49, 0.35)
      else (3.49, 0.49)
    case Iyzico => if currency == "TRY" then (2.45, 0.25) else (2.9, 0.3)
  }

  /** The rule lookup with its `default` fallback yields exactly the documented adapter commissions. */
  lemma AdapterCommissionTable(k: Kind, currency: string)
    requires k != Generic
    ensures EffectiveRule(Rules(k), currency) == AdapterCommission(k, currency)
  {
  }

  /** The adapters' rate tables. */
  function RateTable(k: Kind): map<string, real>
    requires k != Generic
  {
    match k
    case Stripe => map["TRY-USD" := 0.032, "TRY-EUR" := 0.03, "USD-EUR" := 0.92, "EUR-USD" := 1.09]
    case Wise => map["TRY-USD" := 0.0325, "TRY-EUR" := 0.0302, "USD-EUR" := 0.92, "EUR-USD" := 1.09,
                     "GBP-USD" := 1.27, "USD-GBP" := 0.79]
    case PayPal => map["TRY-USD" := 0.031, "TRY-EUR" := 0.029, "USD-EUR" := 0.92, "EUR-USD" := 1.09]
    case Iyzico => map["TRY-USD" := 0.0323, "TRY-EUR" := 0.0301, "USD-TRY" := 30.9, "EUR-TRY" := 33.2]
  }

  /** The next average latency: the mean of the old average and the new sample. */
  function NextLatency(avgLatency: real, latency: real): (r: real)
    ensures avgLatency <= latency ==> avgLatency <= r <= latency
    ensures latency <= avgLatency ==> latency <= r <= avgLatency
  {
    (avgLatency + latency) / 2.0
  }

  /** The exponential moving average of the success rate, with weight 0.7 on the old value. */
  function NextSuccessRate(successRate: real, success: bool): (r: real)
    ensures 0.0 <= successRate <= 100.0 ==> 0.0 <= r <= 100.0
    ensures successRate <= 100.0 && success ==> successRate <= r
    ensures successRate >= 0.0 && !success ==> r <= successRate
  {
    successRate * 0.7 + (if success then 100.0 else 0.0) * (1.0 - 0.7)
  }

  function Power(b: real, n: nat): real {
    if n == 0 then 1.0 else b * Power(b, n - 1)
  }

  function AfterFailures(successRate: real, n: nat): real {
    if n == 0 then successRate else NextSuccessRate(AfterFailures(successRate, n - 1), false)
  }

  /** After `n` consecutive failures the success rate has decayed by a factor of 0.7 per failure. */
  lemma {:induction false} FailuresDecay(successRate: real, n: nat)
    ensures AfterFailures(successRate, n) == successRate * Power(0.7, n)
  {
    if n > 0 {
      FailuresDecay(successRate, n - 1);
    }
  }

  /** The range of the simulated latency each adapter draws on success. */
  predicate InLatencyRange(k: Kind, latency: real) {
    match k
    case Generic => true
    case Stripe => 200.0 <= latency < 1000.0
    case Wise => 300.0 <= latency < 1300.0
    case PayPal => 400.0 <= latency < 1000.0
    case Iyzico => 150.0 <= latency < 550.0
  }

  function TransactionPrefix(k: Kind): string
    requires k != Generic
  {
    match k
    case Stripe => "stripe_"
    case Wise => "wise_"
    case PayPal => "paypal_"
    case Iyzico => "iyzico_"
  }

  function FailureMessage(k: Kind): string
    requires k != Generic
  {
    match k
    case Stripe => "Stripe: Payment declined"
    case Wise => "Wise: Transfer failed"
    case PayPal => "PayPal: Transaction failed"
    case Iyzico => "İyzico: Payment failed"
  }

  // ---------------------------------------------------------------------------
  // Adapter heuristics

  function FirstChar(s: string): Option<char> {
    if |s| > 0 then Some(s[0]) else None
  }

  /** Stripe's brand by first digit. */
  function StripeCardBrand(cardNumber: string): (b: string)
    ensures b == "Visa" <==> FirstChar(cardNumber) == Some('4')
    ensures b == "Mastercard" <==> FirstChar(cardNumber) == Some('5')
    ensures b == "Amex" <==> FirstChar(cardNumber) == Some('3')
    ensures b in {"Visa", "Mastercard", "Amex", "Unknown"}
  {
    var first := FirstChar(cardNumber);
    if first == Some('4') then "Visa"
    else if first == Some('5') then "Mastercard"
    else if first == Some('3') then "Amex"
    else "Unknown"
  }

  /** Stripe's risk: +20 above 5000, +30 more above 10000, capped at 100. */
  function StripeRisk(amount: real): (risk: nat)
    ensures risk <= 100
    ensures risk == 0 <==> amount <= 5000.0
    ensures risk == 20 <==> 5000.0 < amount <= 10000.0
    ensures risk == 50 <==> amount > 10000.0
  {
    var risk := (if amount > 5000.0 then 20 else 0) + (if amount > 10000.0 then 30 else 0);
    Cap(risk, 100)
  }

  /** PayPal's risk label. The source tests `> 10000` before `> 20000`, so "high" is never returned. */
  function PayPalRisk(amount: real): (level: string)
    ensures level == "medium" <==> amount > 10000.0
    ensures level == "low" <==> amount <= 10000.0
  {
    if amount > 10000.0 then "medium"
    else if amount > 20000.0 then "high"
    else "low"
  }

  /** İyzico's brand by first digit. */
  function IyzicoCardBrand(cardNumber: string): (b: string)
    ensures b == "Visa" <==> FirstChar(cardNumber) == Some('4')
    ensures b == "Mastercard" <==> FirstChar(cardNumber) == Some('5')
    ensures b == "Troy" <==> FirstChar(cardNumber) == Some('9')
    ensures b in {"Visa", "Mastercard", "Troy", "Other"}
  {
    var first := FirstChar(cardNumber);
    if first == Some('4') then "Visa"
    else if first == Some('5') then "Mastercard"
    else if first == Some('9') then "Troy"
    else "Other"
  }

  function IsLocalCard(cardNumber: string): (local: bool)
    ensures local <==> |cardNumber| > 0 && cardNumber[0] == '9'
  {
    FirstChar(cardNumber) == Some('9')
  }

  /** İyzico's risk: +15 unless the request says the card is local, +10 above 5000, +20 more above 10000. */
  function IyzicoRisk(amount: real, isLocalCard: bool): (risk: nat)
    ensures risk <= 45
    ensures !isLocalCard ==> risk >= 15
    ensures risk == (if isLocalCard then 0 else 15) + (if amount > 5000.0 then 10 else 0) + (if amount > 10000.0 then 20 else 0)
  {
    var risk := (if !isLocalCard then 15 else 0) + (if amount > 5000.0 then 10 else 0) + (if amount > 10000.0 then 20 else 0);
    Cap(risk, 100)
  }

  function Contains(s: string, c: char): (b: bool)
    ensures b <==> c in s
  {
    exists i :: 0 <= i < |s| && s[i] == c
  }

  // ---------------------------------------------------------------------------
  // The provider

  class Provider {
    const kind: Kind
    const name: string
    const supportedCurrencies: seq<string>
    const commissionRules: map<string, CommissionRule>
    const priority: real
    var isActive: bool
    var avgLatency: real
    var successRate: real

    /** The success rate is a percentage and the average latency is never negative. */
    ghost predicate Valid()
      reads this
    {
      0.0 <= successRate <= 100.0 && avgLatency >= 0.0
    }

    /** The base constructor: missing currencies and rules become empty, a falsy priority becomes 50,
        and `isActive` is always true (the source writes `config.isActive || true`). */
    constructor FromConfig(config: ProviderConfig)
      ensures kind == Generic && name == config.name
      ensures supportedCurrencies == config.supportedCurrencies.GetOr([])
      ensures commissionRules == config.commissionRules.GetOr(map[])
      ensures priority == OrNumber(config.priority, 50.0)
      ensures isActive && avgLatency == 0.0 && successRate == 100.0
      ensures Valid()
    {
      kind := Generic;
      name := config.name;
      supportedCurrencies := config.supportedCurrencies.GetOr([]);
      commissionRules := config.commissionRules.GetOr(map[]);
      priority := OrNumber(config.priority, 50.0);
      isActive := true;
      avgLatency := 0.0;
      successRate := 100.0;
    }

    /** One of the four adapters: the base defaults applied to the adapter's table, then its own latency. */
    constructor Adapter(k: Kind)
      requires k != Generic
      ensures kind == k && name == KindName(k)
      ensures supportedCurrencies == Currencies(k) && commissionRules == Rules(k)
      ensures priority == OrNumber(AdapterConfig(k).priority, 50.0)
      ensures isActive && avgLatency == InitialLatency(k) && successRate == 100.0
      ensures Valid()
    {
      var config := AdapterConfig(k);
      kind := k;
      name := config.name;
      supportedCurrencies := config.supportedCurrencies.GetOr([]);
      commissionRules := config.commissionRules.GetOr(map[]);
      priority := OrNumber(config.priority, 50.0);
      isActive := true;
      avgLatency := InitialLatency(k);
      successRate := 100.0;
    }

    /** `getCommission`: the percentage part of the amount plus the fixed fee of the effective rule.
        The country arguments of the source are unused and omitted. */
    function GetCommission(amount: real, currency: string): (c: real)
      ensures c == amount * EffectiveRule(commissionRules, currency).0 / 100.0 + EffectiveRule(commissionRules, currency).1
    {
      var rule := EffectiveRule(commissionRules, currency);
      (amount * rule.0) / 100.0 + rule.1
    }

    /** `calculateCostScore`: the commission is keyed on the source currency; the FX cost is zero for
        equal currencies; latency and risk penalties come from the provider's live metrics. */
    function CalculateCostScore(amount: real, fromCurrency: string, toCurrency: string, exchangeRate: real): (b: CostBreakdown)
      reads this
      ensures b.totalScore == b.commission + b.fxCost + b.latencyPenalty + b.riskPenalty
      ensures b.commission == GetCommission(amount, fromCurrency)
      ensures fromCurrency == toCurrency ==> b.fxCost == 0.0
      ensures fromCurrency != toCurrency ==> b.fxCost == amount * exchangeRate * FxMarkup(fromCurrency, toCurrency) / 100.0
      ensures b.latencyPenalty == avgLatency / 100.0 && b.riskPenalty == (100.0 - successRate) * 2.0
      ensures Valid() ==> 0.0 <= b.riskPenalty <= 200.0 && b.latencyPenalty >= 0.0
      ensures b.pspName == name && b.successRate == successRate && b.avgLatency == avgLatency
    {
      var commission := GetCommission(amount, fromCurrency);
      var fxCost := if fromCurrency != toCurrency then (amount * exchangeRate * FxMarkup(fromCurrency, toCurrency)) / 100.0 else 0.0;
      var latencyPenalty := avgLatency / 100.0;
      var riskPenalty := (100.0 - successRate) * 2.0;
      CostBreakdown(name, commission, fxCost, latencyPenalty, riskPenalty,
                    commission + fxCost + latencyPenalty + riskPenalty, successRate, avgLatency)
    }

    /** `getExchangeRate`: the adapter's table, 1.0 for an unlisted pair; the base class throws. */
    function GetExchangeRate(fromCurrency: string, toCurrency: string): (r: Result<real>)
      ensures kind == Generic <==> r == Err("getExchangeRate() must be implemented")
      ensures kind != Generic && fromCurrency + "-" + toCurrency !in RateTable(kind) ==> r == Ok(1.0)
      ensures kind != Generic && fromCurrency + "-" + toCurrency in RateTable(kind) ==>
        r == Ok(RateTable(kind)[fromCurrency + "-" + toCurrency])
      ensures r.Ok? ==> r.value > 0.0
    {
      if kind == Generic then Err("getExchangeRate() must be implemented")
      else
        var rates := RateTable(kind);
        var key := fromCurrency + "-" + toCurrency;
        if key in rates && rates[key] != 0.0 then Ok(rates[key]) else Ok(1.0)
    }

    /** `validateTransaction` of each adapter; the base class throws. */
    function ValidateTransaction(t: ValidationRequest): (r: Result<Validation>)
      ensures kind == Generic ==> r == Err("validateTransaction() must be implemented")
      ensures r.Ok? ==> t.currency.Some? && t.currency.value in supportedCurrencies
      ensures kind == Stripe && !(Truthy(t.cardNumber) && Truthy(t.expiryDate) && Truthy(t.cvc)) ==> r == Err("Invalid card details")
      ensures kind == Wise && !Truthy(t.iban) && !Truthy(t.bankAccount) ==> r == Err("IBAN or bank account required for Wise")
      ensures kind == PayPal && !(Truthy(t.paypalEmail) && '@' in t.paypalEmail.value) ==> r == Err("Valid PayPal email required")
      ensures kind == Iyzico && !Truthy(t.cardNumber) ==> r == Err("Card number required")
      ensures kind == Stripe && r.Ok? ==> r.value == CardValidation(StripeCardBrand(t.cardNumber.value), StripeRisk(t.amount))
      ensures kind == Wise && r.Ok? ==> r.value == AccountValidation(if Truthy(t.iban) then "IBAN" else "Bank Account", "low")
      ensures kind == PayPal && r.Ok? ==> r.value == EmailValidation(t.paypalEmail.value, PayPalRisk(t.amount))
      ensures kind == Iyzico && r.Ok? ==>
        r.value == LocalCardValidation(IyzicoCardBrand(t.cardNumber.value), IsLocalCard(t.cardNumber.value), IyzicoRisk(t.amount, t.isLocalCard))
    {
      var supported := t.currency.Some? && t.currency.value in supportedCurrencies;
      var unsupported := Show(t.currency) + " not supported by ";
      match kind
      case Generic => Err("validateTransaction() must be implemented")
      case Stripe =>
        if !Truthy(t.cardNumber) || !Truthy(t.expiryDate) || !Truthy(t.cvc) then Err("Invalid card details")
        else if !supported then Err(unsupported + "Stripe")
        else Ok(CardValidation(StripeCardBrand(t.cardNumber.value), StripeRisk(t.amount)))
      case Wise =>
        if !Truthy(t.iban) && !Truthy(t.bankAccount) then Err("IBAN or bank account required for Wise")
        else if !supported then Err(unsupported + "Wise")
        else Ok(AccountValidation(if Truthy(t.iban) then "IBAN" else "Bank Account", "low"))
      case PayPal =>
        if !Truthy(t.paypalEmail) || !Contains(t.paypalEmail.value, '@') then Err("Valid PayPal email required")
        else if !supported then Err(unsupported + "PayPal")
        else Ok(EmailValidation(t.paypalEmail.value, PayPalRisk(t.amount)))
      case Iyzico =>
        if !Truthy(t.cardNumber) then Err("Card number required")
        else if !supported then Err(unsupported + "İyzico")
        else Ok(LocalCardValidation(IyzicoCardBrand(t.cardNumber.value), IsLocalCard(t.cardNumber.value), IyzicoRisk(t.amount, t.isLocalCard)))
    }

    /** `updateMetrics`: averages the latency and moves the success rate towards 100 or 0. */
    method UpdateMetrics(latency: real, success: bool)
      requires Valid() && latency >= 0.0
      modifies this`avgLatency, this`successRate
      ensures Valid()
      ensures avgLatency == NextLatency(old(avgLatency), latency)
      ensures successRate == NextSuccessRate(old(successRate), success)
    {
      avgLatency := (avgLatency + latency) / 2.0;
      var weight := 0.7;
      successRate := successRate * weight + (if success then 100.0 else 0.0) * (1.0 - weight);
    }

    /** `processPayment`, its effect on the metrics and its result: the base class throws without
        touching the metrics; an adapter updates the metrics exactly once, with the simulated latency
        on success and with the elapsed time on failure, and then returns or rethrows. */
    method ProcessPayment(amount: real, currency: Option<string>, now: nat, outcome: Outcome) returns (r: Result<PaymentResult>)
      requires Valid()
      requires outcome.Approved? ==> InLatencyRange(kind, outcome.latency)
      modifies this`avgLatency, this`successRate
      ensures Valid()
      ensures kind == Generic ==>
        r == Err("processPayment() must be implemented") && avgLatency == old(avgLatency) && successRate == old(successRate)
      ensures kind != Generic && outcome.Approved? ==>
        r == Ok(PaymentResult(TransactionPrefix(kind) + NatToString(now), name, amount, currency, outcome.latency))
        && avgLatency == NextLatency(old(avgLatency), outcome.latency)
        && successRate == NextSuccessRate(old(successRate), true)
      ensures kind != Generic && outcome.Rejected? ==>
        r == Err(FailureMessage(kind))
        && avgLatency == NextLatency(old(avgLatency), outcome.elapsedMs as real)
        && successRate == NextSuccessRate(old(successRate), false)
    {
      if kind == Generic {
        return Err("processPayment() must be implemented");
      }
      match outcome
      case Approved(latency) =>
        UpdateMetrics(latency, true);
        r := Ok(PaymentResult(TransactionPrefix(kind) + NatToString(now), name, amount, currency, latency));
      case Rejected(elapsedMs) =>
        UpdateMetrics(elapsedMs as real, false);
        r := Err(FailureMessage(kind));
    }
  }

  /** Every adapter starts active, with a perfect success rate and its documented latency. */
  lemma AdapterPriorities()
    ensures OrNumber(AdapterConfig(Stripe).priority, 50.0) == 80.0
    ensures OrNumber(AdapterConfig(Wise).priority, 50.0) == 85.0
    ensures OrNumber(AdapterConfig(PayPal).priority, 50.0) == 70.0
    ensures OrNumber(AdapterConfig(Iyzico).priority, 50.0) == 90.0
  {
  }

  /** Stripe cannot take TRY; İyzico takes only TRY, USD and EUR; Wise and PayPal take TRY. */
  lemma CurrencyCoverage()
    ensures "TRY" !in Currencies(Stripe)
    ensures forall c :: c in Currencies(Iyzico) <==> c in {"TRY", "USD", "EUR"}
    ensures "TRY" in Currencies(Wise) && "TRY" in Currencies(PayPal)
  {
  }
}
