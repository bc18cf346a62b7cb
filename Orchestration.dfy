/** The payment orchestration service (backend/src/services/PaymentOrchestrationService.js): a
    money transfer screens the sender against the blacklist, files a pending transaction row, asks
    the fraud engine, records the sender's activity, routes the payment, lets the chosen provider
    process it, completes the row, records the transaction in the registry and issues a receipt.
    A card payment does the same with a caller-chosen provider and no routing. The database,
    the clock, the simulated delays and the providers' random outcomes are inputs. */
module Orchestration {
  import opened Wrappers
  import opened Formatting
  import opened Sorting
  import opened Fraud
  import opened Providers
  import opened PluginStore
  import opened Routing
  import opened Receipts

  // ---------------------------------------------------------------------------
  // The blacklist query

  /** What the two blacklist queries return: no user row, a query error, or whether the user's
      e-mail address is listed. */
  datatype BlacklistLookup = NoSuchUser | QueryFailed | UserEmail(listed: bool)

  /** `checkBlacklist`: only a listed e-mail address blocks; a missing user and a failed query let
      the transfer through. */
  function CheckBlacklist(lookup: BlacklistLookup): (blocked: bool)
    ensures blocked <==> lookup.UserEmail? && lookup.listed
    ensures lookup.QueryFailed? ==> !blocked
  {
    match lookup
    case UserEmail(listed) => listed
    case _ => false
  }

  // ---------------------------------------------------------------------------
  // The transactions table

  /** The columns of one `transactions` row the service writes. */
  datatype StoredRow = StoredRow(
    senderId: string,
    amount: real,
    fromCurrency: Option<string>,
    toCurrency: Option<string>,
    fxRate: real,
    selectedPsp: string,
    fraudScore: nat,
    fraudStatus: string,
    totalCost: real,
    commission: real,
    status: string,
    senderCountry: Option<string>,
    recipientCountry: Option<string>)

  /** The columns the completing `UPDATE` sets. */
  datatype RowUpdate = RowUpdate(
    fxRate: real, fraudScore: nat, fraudStatus: string, totalCost: real, commission: real, selectedPsp: string)

  /** A row after the completing update: the update's columns and the status 'completed'; the
      sender, the amount, the currencies and the countries stay as filed. */
  function Completed(row: StoredRow, u: RowUpdate): (r: StoredRow)
    ensures r.status == "completed"
    ensures r.fxRate == u.fxRate && r.fraudScore == u.fraudScore && r.fraudStatus == u.fraudStatus
    ensures r.totalCost == u.totalCost && r.commission == u.commission && r.selectedPsp == u.selectedPsp
    ensures r.senderId == row.senderId && r.amount == row.amount
    ensures r.fromCurrency == row.fromCurrency && r.toCurrency == row.toCurrency
    ensures r.senderCountry == row.senderCountry && r.recipientCountry == row.recipientCountry
  {
    row.(fxRate := u.fxRate, fraudScore := u.fraudScore, fraudStatus := u.fraudStatus,
         totalCost := u.totalCost, commission := u.commission, status := "completed", selectedPsp := u.selectedPsp)
  }

  /** The table after the `UPDATE ... WHERE transaction_id = id`: a missing row or a failed
      statement changes nothing. */
  function UpdatedRows(rows: map<string, StoredRow>, id: string, u: RowUpdate, succeeds: bool): (r: map<string, StoredRow>)
    ensures r.Keys == rows.Keys
    ensures forall k :: k in rows && k != id ==> r[k] == rows[k]
    ensures id in rows ==> r[id] == if succeeds then Completed(rows[id], u) else rows[id]
  {
    if succeeds && id in rows then rows[id := Completed(rows[id], u)] else rows
  }

  /** The `transactions` table, keyed by transaction id. */
  class TransactionTable {
    var rows: map<string, StoredRow>

    constructor ()
      ensures rows == map[]
    {
      rows := map[];
    }

    /** The pending `INSERT`; a failed statement is logged and leaves the table as it was. */
    method Insert(id: string, row: StoredRow, succeeds: bool)
      modifies this`rows
      ensures rows == if succeeds then old(rows)[id := row] else old(rows)
    {
      if succeeds {
        rows := rows[id := row];
      }
    }

    /** The completing `UPDATE`. */
    method MarkCompleted(id: string, u: RowUpdate, succeeds: bool)
      modifies this`rows
      ensures rows == UpdatedRows(old(rows), id, u, succeeds)
    {
      if succeeds && id in rows {
        rows := rows[id := Completed(rows[id], u)];
      }
    }
  }

  // ---------------------------------------------------------------------------
  // A money transfer

  /** The fields of `transferData` the service reads; an absent field is `None`. */
  datatype TransferData = TransferData(
    senderId: UserId,
    recipientId: Option<string>,
    amount: real,
    fromCurrency: Option<string>,
    toCurrency: Option<string>,
    senderCountry: Option<string>,
    recipientCountry: Option<string>,
    userMode: Option<string>,
    ipAddress: Option<string>,
    deviceId: Option<string>,
    preferredProvider: Option<string>,
    senderEmail: Option<string>,
    recipientEmail: Option<string>)

  /** What the surroundings decide: the blacklist queries, the pending id (built from the clock
      and a random suffix), whether each database statement succeeds, the clock readings, the
      local hour, the fraud engine's random draw, the sine used for the routing variance, the
      outcome each provider kind's simulated call would have, the receipt's rendered date and
      whether the receipt file could be written. */
  datatype Environment = Environment(
    blacklist: BlacklistLookup,
    pendingId: string,
    insertSucceeds: bool,
    assessedAt: int,
    localHour: int,
    cardDraw: bool,
    sine: real -> real,
    outcomeFor: Kind -> Outcome,
    paymentClock: nat,
    updateSucceeds: bool,
    recordedAt: int,
    receiptDateTime: string,
    receiptSaved: bool)

  /** A simulated outcome always lies in the latency range of its provider kind. */
  predicate ValidOutcomes(outcomeFor: Kind -> Outcome) {
    forall k :: outcomeFor(k).Approved? ==> InLatencyRange(k, outcomeFor(k).latency)
  }

  const SecurityPolicyMessage: string := "Transaction blocked due to security policies."
  /** The TypeError of `psp.processPayment` on an unregistered provider name. */
  const UndefinedProvider: string := "Cannot read properties of undefined (reading 'processPayment')"

  datatype Costs = Costs(commission: real, fxCost: real, totalCost: real)

  /** One entry of `routing.alternatives` in the response. */
  datatype AlternativeView = AlternativeView(pspName: string, expectedScore: real, costDifference: string)

  /** What `saveReceipt` returns: whether the file was written, and the receipt itself either way. */
  datatype SavedReceipt = SavedReceipt(success: bool, html: string, data: ReceiptData)

  /** The response of a completed transfer (status 'COMPLETED'). */
  datatype TransferResponse = TransferResponse(
    transactionId: string,
    selectedPSP: string,
    amount: real,
    fromCurrency: Option<string>,
    toCurrency: Option<string>,
    exchangeRate: real,
    recipientId: Option<string>,
    senderId: UserId,
    costs: Costs,
    processingTime: real,
    riskAssessment: RiskAssessment,
    selectedScore: real,
    alternatives: seq<AlternativeView>,
    receipt: Option<SavedReceipt>)

  /** The four answers of `initiateMoneyTransfer`: blocked by the blacklist (DECLINED with an
      error), declined by the fraud engine (DECLINED with a reason), FAILED, or COMPLETED. */
  datatype TransferResult =
    | Blocked(error: string)
    | FraudDeclined(reason: string, riskAssessment: RiskAssessment)
    | Failed(error: string)
    | Done(response: TransferResponse)

  /** The pending row: rate 1, provider, fraud status and status 'pending', zero score and costs. */
  function PendingRow(t: TransferData): (row: StoredRow)
    ensures row.status == "pending" && row.selectedPsp == "pending" && row.fraudStatus == "pending"
    ensures row.fxRate == 1.0 && row.fraudScore == 0 && row.totalCost == 0.0 && row.commission == 0.0
    ensures row.senderId == t.senderId && row.amount == t.amount
  {
    StoredRow(t.senderId, t.amount, t.fromCurrency, t.toCurrency, 1.0, "pending", 0, "pending", 0.0, 0.0,
              "pending", t.senderCountry, t.recipientCountry)
  }

  function PendingRows(rows: map<string, StoredRow>, t: TransferData, env: Environment): map<string, StoredRow> {
    if env.insertSucceeds then rows[env.pendingId := PendingRow(t)] else rows
  }

  /** What the fraud engine is asked about a transfer: the sender, the source currency, the
      transfer's clock reading and both countries; there is no card number. */
  function FraudInput(t: TransferData, env: Environment): (d: TransactionData)
    ensures d.userId == t.senderId && d.amount == t.amount && d.cardNumber.None?
  {
    TransactionData(t.amount, t.fromCurrency, t.senderId, None, t.ipAddress, t.deviceId,
                    env.assessedAt, env.localHour, t.recipientCountry, t.senderCountry)
  }

  /** The routing request; the user mode defaults to 'balanced'. */
  function RoutingRequestOf(t: TransferData): (req: RoutingRequest)
    ensures Mode(req) == t.userMode.GetOr("balanced")
  {
    RoutingRequest(t.amount, t.fromCurrency, t.toCurrency, t.senderCountry, t.recipientCountry,
                   Some(t.userMode.GetOr("balanced")))
  }

  /** A truthy preferred provider overrides the routing engine's choice. */
  function SelectedName(t: TransferData, analysis: RoutingAnalysis): (name: string)
    ensures Truthy(t.preferredProvider) ==> name == t.preferredProvider.value
    ensures !Truthy(t.preferredProvider) ==> name == analysis.optimal.pspName
  {
    if Truthy(t.preferredProvider) then t.preferredProvider.value else analysis.optimal.pspName
  }

  /** The first two alternatives, each with its weighted score and its distance from the optimal
      score as `toFixed(2)` text. */
  function AlternativeViews(analysis: RoutingAnalysis): (vs: seq<AlternativeView>)
    ensures |vs| == Min(2, |analysis.alternatives|)
    ensures forall i :: 0 <= i < |vs| ==>
      && vs[i].pspName == analysis.alternatives[i].pspName
      && vs[i].expectedScore == analysis.alternatives[i].weightedScore
      && vs[i].costDifference == ToFixed(analysis.alternatives[i].weightedScore - analysis.optimal.expectedScore, 2)
  {
    var alts := analysis.alternatives;
    seq(Min(2, |alts|), i requires 0 <= i < Min(2, |alts|) =>
      AlternativeView(alts[i].pspName, alts[i].weightedScore, ToFixed(alts[i].weightedScore - analysis.optimal.expectedScore, 2)))
  }

  /** `riskLevel.toLowerCase()`. */
  function LevelText(level: RiskLevel): string {
    match level
    case Low => "low"
    case Medium => "medium"
    case High => "high"
  }

  function UpdateFor(a: RiskAssessment, analysis: RoutingAnalysis, name: string): RowUpdate {
    RowUpdate(analysis.optimal.exchangeRate, a.riskScore, LevelText(a.riskLevel),
              analysis.optimal.breakdown.totalScore, analysis.optimal.breakdown.commission, name)
  }

  function OrNotAvailable(s: Option<string>): string {
    if Truthy(s) then s.value else "N/A"
  }

  /** The transaction handed to the receipt generator. */
  function ReceiptInputFor(t: TransferData, env: Environment, analysis: RoutingAnalysis, name: string, transactionId: string): (input: ReceiptInput)
    ensures input.amount == Some(t.amount) && input.status == Some("completed")
  {
    ReceiptInput(Some(transactionId), Some(t.amount), t.fromCurrency, t.toCurrency,
                 Some(analysis.optimal.exchangeRate), Some(analysis.optimal.breakdown.commission), Some(name),
                 Some(OrNotAvailable(t.senderEmail)), Some(OrNotAvailable(t.recipientEmail)), Some("completed"),
                 env.receiptDateTime)
  }

  function SavedFrom(r: Result<Receipt>, saved: bool): Option<SavedReceipt> {
    match r
    case Ok(receipt) => Some(SavedReceipt(saved, receipt.html, receipt.data))
    case Err(_) => None
  }

  /** The response of a transfer that `name` paid with the provider's transaction id and latency. */
  function ResponseOf(t: TransferData, env: Environment, template: string, a: RiskAssessment,
                      analysis: RoutingAnalysis, name: string, transactionId: string, latency: real): TransferResponse
  {
    var optimal := analysis.optimal;
    TransferResponse(
      transactionId, name, t.amount, t.fromCurrency, t.toCurrency, optimal.exchangeRate, t.recipientId, t.senderId,
      Costs(optimal.breakdown.commission, optimal.breakdown.fxCost, optimal.breakdown.totalScore),
      latency, a, optimal.expectedScore, AlternativeViews(analysis),
      SavedFrom(ReceiptOf(template, ReceiptInputFor(t, env, analysis, name, transactionId)), env.receiptSaved))
  }

  /** The registry entry of a completed transfer. */
  function TransferRecord(response: TransferResponse): (rec: TransactionRecord)
    ensures rec.success && rec.status == "COMPLETED" && rec.kind == "transfer"
    ensures rec.selectedPSP == response.selectedPSP && rec.amount == response.amount
  {
    TransactionRecord(response.transactionId, response.selectedPSP, response.amount, response.toCurrency, true,
                      "COMPLETED", response.senderId, "transfer", response.processingTime)
  }

  // ---------------------------------------------------------------------------
  // Calling a provider

  /** The time a provider's metrics are updated with. */
  function Elapsed(o: Outcome): real {
    match o
    case Approved(latency) => latency
    case Rejected(elapsedMs) => elapsedMs as real
  }

  /** The provider whose simulated call runs when `name` is asked to pay: a registered adapter
      (the base class throws before touching its metrics). */
  function Called(plugins: map<string, Provider>, name: string): (p: Option<Provider>)
    ensures p.Some? <==> name in plugins && plugins[name].kind != Generic
    ensures p.Some? ==> p.value == plugins[name]
  {
    if name in plugins && plugins[name].kind != Generic then Some(plugins[name]) else None
  }

  /** What `processPayment` of `p` answers with the simulated outcome of its kind. */
  function ProviderAnswer(p: Provider, amount: real, currency: Option<string>, clock: nat, outcomeFor: Kind -> Outcome)
    : (r: Result<PaymentResult>)
    ensures p.kind == Generic ==> r == Err("processPayment() must be implemented")
    ensures p.kind != Generic && outcomeFor(p.kind).Rejected? ==> r == Err(FailureMessage(p.kind))
    ensures r.Ok? <==> p.kind != Generic && outcomeFor(p.kind).Approved?
    ensures r.Ok? ==> r.value == PaymentResult(TransactionPrefix(p.kind) + NatToString(clock), p.name, amount, currency,
                                               outcomeFor(p.kind).latency)
  {
    if p.kind == Generic then Err("processPayment() must be implemented")
    else
      match outcomeFor(p.kind)
      case Rejected(_) => Err(FailureMessage(p.kind))
      case Approved(latency) => Ok(PaymentResult(TransactionPrefix(p.kind) + NatToString(clock), p.name, amount, currency, latency))
  }

  datatype ProviderMetrics = ProviderMetrics(avgLatency: real, successRate: real, isActive: bool)

  /** The live metrics of every registered provider, by name. */
  function Snapshot(plugins: map<string, Provider>): (m: map<string, ProviderMetrics>)
    reads plugins.Values
    ensures m.Keys == plugins.Keys
    ensures forall n :: n in plugins ==>
      m[n] == ProviderMetrics(plugins[n].avgLatency, plugins[n].successRate, plugins[n].isActive)
  {
    map n | n in plugins :: ProviderMetrics(plugins[n].avgLatency, plugins[n].successRate, plugins[n].isActive)
  }

  /** One provider's metrics against an earlier reading: moved by one simulated call of its kind if
      `used`, the same otherwise; the active flag never changes. */
  predicate MovedOnce(after: ProviderMetrics, before: ProviderMetrics, used: bool, kind: Kind, outcomeFor: Kind -> Outcome) {
    && after.isActive == before.isActive
    && if used then
         after.avgLatency == NextLatency(before.avgLatency, Elapsed(outcomeFor(kind)))
         && after.successRate == NextSuccessRate(before.successRate, outcomeFor(kind).Approved?)
       else after.avgLatency == before.avgLatency && after.successRate == before.successRate
  }

  /** Between the readings `before` and `after`, only the provider `called` (if any) has new metrics. */
  predicate MetricsMoved(plugins: map<string, Provider>, after: map<string, ProviderMetrics>,
                         before: map<string, ProviderMetrics>, called: Option<Provider>, outcomeFor: Kind -> Outcome)
  {
    forall n :: n in plugins && n in after && n in before ==>
      MovedOnce(after[n], before[n], called == Some(plugins[n]), plugins[n].kind, outcomeFor)
  }

  /** Two readings of unchanged metrics. */
  lemma SnapshotUnmoved(plugins: map<string, Provider>, m: map<string, ProviderMetrics>, outcomeFor: Kind -> Outcome)
    ensures MetricsMoved(plugins, m, m, None, outcomeFor)
  {
  }

  /** `psp.processPayment` of the registered provider `name`: its answer, and only its metrics move. */
  method CallProvider(store: PSPPluginStore, name: string, amount: real, currency: Option<string>, clock: nat,
                      outcomeFor: Kind -> Outcome) returns (r: Result<PaymentResult>)
    requires store.Valid() && ValidOutcomes(outcomeFor) && name in store.plugins
    modifies store.plugins.Values
    ensures store.Valid()
    ensures r == ProviderAnswer(store.plugins[name], amount, currency, clock, outcomeFor)
    ensures MetricsMoved(store.plugins, Snapshot(store.plugins), old(Snapshot(store.plugins)), Called(store.plugins, name), outcomeFor)
  {
    var provider := store.plugins[name];
    r := provider.ProcessPayment(amount, currency, clock, outcomeFor(provider.kind));
  }

  /** A step that touches neither the registry nor its providers leaves the registry valid, its
      metrics as they were, and every routing result unchanged. */
  twostate lemma StoreUntouched(store: PSPPluginStore)
    requires old(store.Valid()) && unchanged(store) && unchanged(store.plugins.Values)
    ensures store.Valid() && Snapshot(store.plugins) == old(Snapshot(store.plugins))
    ensures forall req, sine :: Route(store.ActiveProviders(), req, sine) == old(Route(store.ActiveProviders(), req, sine))
  {
  }

  // ---------------------------------------------------------------------------
  // The transfer after routing

  /** The selected provider's answer: an unregistered name fails with a TypeError. */
  function PaymentOf(t: TransferData, env: Environment, analysis: RoutingAnalysis, plugins: map<string, Provider>)
    : (r: Result<PaymentResult>)
    ensures SelectedName(t, analysis) !in plugins ==> r == Err(UndefinedProvider)
    ensures SelectedName(t, analysis) in plugins ==>
      r == ProviderAnswer(plugins[SelectedName(t, analysis)], t.amount, t.toCurrency, env.paymentClock, env.outcomeFor)
  {
    var name := SelectedName(t, analysis);
    if name !in plugins then Err(UndefinedProvider)
    else ProviderAnswer(plugins[name], t.amount, t.toCurrency, env.paymentClock, env.outcomeFor)
  }

  /** The answer once the transfer is routed to `analysis`: the selected provider processes the
      payment, and only an approved call completes the transfer (see `SettledOutcomes`). */
  function SettledOf(t: TransferData, env: Environment, template: string, a: RiskAssessment,
                     analysis: RoutingAnalysis, plugins: map<string, Provider>): TransferResult
  {
    match PaymentOf(t, env, analysis, plugins)
    case Err(e) => Failed(e)
    case Ok(payment) =>
      Done(ResponseOf(t, env, template, a, analysis, SelectedName(t, analysis), payment.transactionId, payment.processingTime))
  }

  /** A routed transfer fails exactly with the provider's error and otherwise completes with the
      selected provider's transaction id. */
  lemma SettledOutcomes(t: TransferData, env: Environment, template: string, a: RiskAssessment,
                        analysis: RoutingAnalysis, plugins: map<string, Provider>)
    ensures var r := SettledOf(t, env, template, a, analysis, plugins);
      && !r.Blocked? && !r.FraudDeclined?
      && (r.Failed? <==> PaymentOf(t, env, analysis, plugins).Err?)
      && (r.Failed? ==> r.error == PaymentOf(t, env, analysis, plugins).error)
      && (r.Done? ==> r.response.selectedPSP == SelectedName(t, analysis)
                      && r.response.transactionId == PaymentOf(t, env, analysis, plugins).value.transactionId)
  {
  }

  /** The provider whose simulated call runs, if the transfer gets that far. */
  function Charged(t: TransferData, env: Environment, a: RiskAssessment, route: Result<RoutingAnalysis>,
                   plugins: map<string, Provider>): (p: Option<Provider>)
    ensures p.Some? ==> p.value.kind != Generic && p.value in plugins.Values
  {
    if CheckBlacklist(env.blacklist) || a.action == Decline || route.Err? then None
    else Called(plugins, SelectedName(t, route.value))
  }

  /** The answer of `initiateMoneyTransfer`, given the fraud assessment `a`, the routing result
      `route` and the registered providers (see `TransferOutcomes`). */
  function TransferOf(t: TransferData, env: Environment, template: string, a: RiskAssessment,
                      route: Result<RoutingAnalysis>, plugins: map<string, Provider>): TransferResult
  {
    if CheckBlacklist(env.blacklist) then Blocked(SecurityPolicyMessage)
    else if a.action == Decline then FraudDeclined(a.recommendation, a)
    else if route.Err? then Failed(route.error)
    else SettledOf(t, env, template, a, route.value, plugins)
  }

  /** The stages of a transfer in order: a listed sender is blocked with the security message; a
      DECLINE is reported with the assessment; a routing error fails the transfer; past routing,
      exactly the transfers whose charged provider approves complete, with that provider's
      transaction id and latency. */
  lemma TransferOutcomes(t: TransferData, env: Environment, template: string, a: RiskAssessment,
                         route: Result<RoutingAnalysis>, plugins: map<string, Provider>)
    ensures var r := TransferOf(t, env, template, a, route, plugins);
      && (r.Blocked? <==> CheckBlacklist(env.blacklist))
      && (r.Blocked? ==> r.error == SecurityPolicyMessage)
      && (r.FraudDeclined? <==> !CheckBlacklist(env.blacklist) && a.action == Decline)
      && (r.FraudDeclined? ==> r.reason == a.recommendation && r.riskAssessment == a)
      && (!CheckBlacklist(env.blacklist) && a.action != Decline && route.Err? ==> r == Failed(route.error))
      && (r.Done? <==> Charged(t, env, a, route, plugins).Some? && env.outcomeFor(Charged(t, env, a, route, plugins).value.kind).Approved?)
      && (r.Done? ==> route.Ok? && r.response.selectedPSP == SelectedName(t, route.value))
      && (r.Done? ==> var p := Charged(t, env, a, route, plugins).value;
            r.response.transactionId == TransactionPrefix(p.kind) + NatToString(env.paymentClock)
            && r.response.processingTime == env.outcomeFor(p.kind).latency)
  {
    if !CheckBlacklist(env.blacklist) && a.action != Decline && route.Ok? {
      SettledOutcomes(t, env, template, a, route.value, plugins);
    }
  }

  /** The selected provider processes the payment. */
  method Pay(store: PSPPluginStore, t: TransferData, env: Environment, analysis: RoutingAnalysis)
    returns (r: Result<PaymentResult>)
    requires store.Valid() && ValidOutcomes(env.outcomeFor)
    modifies store.plugins.Values
    ensures store.Valid()
    ensures r == PaymentOf(t, env, analysis, store.plugins)
    ensures MetricsMoved(store.plugins, Snapshot(store.plugins), old(Snapshot(store.plugins)), Called(store.plugins, SelectedName(t, analysis)), env.outcomeFor)
  {
    var selectedPSP := SelectedName(t, analysis);
    var psp := store.GetPSP(selectedPSP);
    if psp.None? {
      SnapshotUnmoved(store.plugins, Snapshot(store.plugins), env.outcomeFor);
      return Err(UndefinedProvider);
    }
    r := CallProvider(store, selectedPSP, t.amount, t.toCurrency, env.paymentClock, env.outcomeFor);
  }

  /** The bookkeeping of a completed transfer: the completing update of its row and its registry
      entry; no provider changes. */
  method Complete(store: PSPPluginStore, table: TransactionTable, env: Environment, a: RiskAssessment,
                  analysis: RoutingAnalysis, response: TransferResponse)
    requires store.Valid()
    modifies table`rows, store`transactionHistory, store`performanceMetrics
    ensures store.Valid()
    ensures table.rows == UpdatedRows(old(table.rows), env.pendingId, UpdateFor(a, analysis, response.selectedPSP), env.updateSucceeds)
    ensures store.transactionHistory == old(store.transactionHistory) + [HistoryEntry(TransferRecord(response), env.recordedAt)]
    ensures store.performanceMetrics == MetricsAfter(old(store.performanceMetrics), TransferRecord(response))
    ensures store.plugins == old(store.plugins) && unchanged(store.plugins.Values)
  {
    table.MarkCompleted(env.pendingId, UpdateFor(a, analysis, response.selectedPSP), env.updateSucceeds);
    store.RecordTransaction(TransferRecord(response), env.recordedAt);
  }

  /** The steps after routing: the provider call and, for a completed payment, its bookkeeping. */
  method Settle(store: PSPPluginStore, table: TransactionTable, t: TransferData, env: Environment, template: string,
                a: RiskAssessment, analysis: RoutingAnalysis) returns (r: TransferResult)
    requires store.Valid() && ValidOutcomes(env.outcomeFor)
    modifies table`rows, store`transactionHistory, store`performanceMetrics, store.plugins.Values
    ensures store.Valid()
    ensures r == SettledOf(t, env, template, a, analysis, store.plugins)
    ensures table.rows == if r.Done? then UpdatedRows(old(table.rows), env.pendingId, UpdateFor(a, analysis, r.response.selectedPSP), env.updateSucceeds)
                          else old(table.rows)
    ensures store.transactionHistory ==
              old(store.transactionHistory) + (if r.Done? then [HistoryEntry(TransferRecord(r.response), env.recordedAt)] else [])
    ensures store.performanceMetrics ==
              if r.Done? then MetricsAfter(old(store.performanceMetrics), TransferRecord(r.response)) else old(store.performanceMetrics)
    ensures MetricsMoved(store.plugins, Snapshot(store.plugins), old(Snapshot(store.plugins)), Called(store.plugins, SelectedName(t, analysis)), env.outcomeFor)
  {
    var paymentResult := Pay(store, t, env, analysis);
    if paymentResult.Err? {
      return Failed(paymentResult.error);
    }
    var payment := paymentResult.value;
    var response := ResponseOf(t, env, template, a, analysis, SelectedName(t, analysis), payment.transactionId, payment.processingTime);
    Complete(store, table, env, a, analysis, response);
    r := Done(response);
  }

  /** The fraud engine's histories after a transfer's fraud step: the sender assessed and, unless
      declined, the amount and the time recorded. */
  function Screened(h: Histories, t: TransferData, env: Environment, declined: bool): Histories {
    var assessed := Assessed(h, FraudInput(t, env));
    if declined then assessed else Recorded(assessed, t.senderId, t.amount, env.assessedAt)
  }

  /** The screened histories: the amount and the time are recorded exactly when the engine does not
      decline; the sender's location is stored, and a new sender's device and empty window, either way. */
  lemma ScreenedRecordsUnlessDeclined(h: Histories, t: TransferData, env: Environment, declined: bool)
    ensures var s := Screened(h, t, env, declined);
      var u := t.senderId;
      && s.amounts == (if declined then h.amounts
                       else h.amounts[u := Window(Lookup(h.amounts, u).GetOr([]) + [t.amount], MaxHistory)])
      && s.timestamps == (if declined then (if u in h.timestamps then h.timestamps else h.timestamps[u := []])
                          else h.timestamps[u := Window(Lookup(h.timestamps, u).GetOr([]) + [env.assessedAt], MaxHistory)])
      && s.locations == h.locations[u := GeoHistoryAfter(Lookup(h.locations, u), CurrentLocation(FraudInput(t, env)))]
      && s.devices == (if u in h.devices then h.devices else h.devices[u := [DeviceEntry(t.deviceId, t.ipAddress)]])
  {
  }

  /** The fraud step of a transfer: the sender is assessed and, unless declined, the amount and the
      assessment's timestamp are recorded in the sender's windows. */
  method ScreenSender(engine: FraudDetectionEngine, t: TransferData, env: Environment) returns (a: RiskAssessment)
    requires engine.Valid()
    modifies engine
    ensures engine.Valid()
    ensures a == Assessment(old(engine.timestamps), old(engine.amounts), old(engine.locations), old(engine.devices),
                            FraudInput(t, env), env.cardDraw)
    ensures engine.State() == Screened(old(engine.State()), t, env, a.action == Decline)
  {
    ghost var before := engine.State();
    a := engine.AssessRisk(FraudInput(t, env), [], env.cardDraw);
    ghost var assessed := engine.State();
    assert assessed == Assessed(before, FraudInput(t, env));
    if a.action != Decline {
      engine.RecordTransaction(t.senderId, t.amount, t.ipAddress, t.deviceId, env.assessedAt);
      assert engine.State() == Recorded(assessed, t.senderId, t.amount, env.assessedAt);
    }
  }

  /** The routing step and what follows it: a routing error fails the transfer and touches nothing;
      a route settles the transfer as `Settle` does. `route` and `before` name the routing result
      and the provider metrics on entry. */
  method RouteAndSettle(store: PSPPluginStore, table: TransactionTable, t: TransferData, env: Environment,
                        template: string, a: RiskAssessment, ghost route: Result<RoutingAnalysis>,
                        ghost before: map<string, ProviderMetrics>) returns (r: TransferResult)
    requires store.Valid() && ValidOutcomes(env.outcomeFor)
    requires route == Route(store.ActiveProviders(), RoutingRequestOf(t), env.sine) && before == Snapshot(store.plugins)
    modifies table`rows, store`transactionHistory, store`performanceMetrics, store.plugins.Values
    ensures store.Valid()
    ensures r == if route.Err? then Failed(route.error) else SettledOf(t, env, template, a, route.value, store.plugins)
    ensures !r.Blocked? && !r.FraudDeclined?
    ensures table.rows == if r.Done? then UpdatedRows(old(table.rows), env.pendingId, UpdateFor(a, route.value, r.response.selectedPSP), env.updateSucceeds)
                          else old(table.rows)
    ensures MetricsMoved(store.plugins, Snapshot(store.plugins), before,
                         if route.Err? then None else Called(store.plugins, SelectedName(t, route.value)), env.outcomeFor)
    ensures store.transactionHistory ==
              old(store.transactionHistory) + (if r.Done? then [HistoryEntry(TransferRecord(r.response), env.recordedAt)] else [])
    ensures store.performanceMetrics ==
              if r.Done? then MetricsAfter(old(store.performanceMetrics), TransferRecord(r.response)) else old(store.performanceMetrics)
  {
    var routing := SelectOptimalPSP(store, RoutingRequestOf(t), env.sine);
    if routing.Err? {
      SnapshotUnmoved(store.plugins, before, env.outcomeFor);
      return Failed(routing.error);
    }
    r := Settle(store, table, t, env, template, a, routing.value);
    SettledOutcomes(t, env, template, a, routing.value, store.plugins);
  }

  /** A transfer past the pending insert: the sender is screened, and a transfer the fraud engine
      does not decline is routed and settled. `route` and `before` name the routing result and the
      provider metrics on entry. */
  method ScreenAndSettle(engine: FraudDetectionEngine, store: PSPPluginStore, table: TransactionTable,
                         t: TransferData, env: Environment, template: string, ghost route: Result<RoutingAnalysis>,
                         ghost before: map<string, ProviderMetrics>) returns (r: TransferResult)
    requires engine.Valid() && store.Valid() && ValidOutcomes(env.outcomeFor)
    requires !CheckBlacklist(env.blacklist)
    requires route == Route(store.ActiveProviders(), RoutingRequestOf(t), env.sine) && before == Snapshot(store.plugins)
    modifies engine, table`rows, store`transactionHistory, store`performanceMetrics, store.plugins.Values
    ensures engine.Valid() && store.Valid()
    ensures var a := Assessment(old(engine.timestamps), old(engine.amounts), old(engine.locations), old(engine.devices),
                                FraudInput(t, env), env.cardDraw);
            && r == TransferOf(t, env, template, a, route, store.plugins)
            && table.rows == (if r.Done? then UpdatedRows(old(table.rows), env.pendingId,
                                                          UpdateFor(a, route.value, r.response.selectedPSP), env.updateSucceeds)
                              else old(table.rows))
            && MetricsMoved(store.plugins, Snapshot(store.plugins), before, Charged(t, env, a, route, store.plugins), env.outcomeFor)
    ensures engine.State() == Screened(old(engine.State()), t, env, r.FraudDeclined?)
    ensures store.transactionHistory ==
              old(store.transactionHistory) + (if r.Done? then [HistoryEntry(TransferRecord(r.response), env.recordedAt)] else [])
    ensures store.performanceMetrics ==
              if r.Done? then MetricsAfter(old(store.performanceMetrics), TransferRecord(r.response)) else old(store.performanceMetrics)
  {
    var fraudCheck := ScreenSender(engine, t, env);
    StoreUntouched(store);
    if fraudCheck.action == Decline {
      SnapshotUnmoved(store.plugins, before, env.outcomeFor);
      return FraudDeclined(fraudCheck.recommendation, fraudCheck);
    }
    r := RouteAndSettle(store, table, t, env, template, fraudCheck, route, before);
  }

  /** `initiateMoneyTransfer`. A blacklisted sender is blocked and nothing changes. Every other
      transfer leaves a pending row (if the insert succeeded), assesses the sender and, unless
      declined, records the sender's amount and time; its answer is `TransferOf` the assessment and
      the route of the state on entry. Only the provider that processed the payment has new
      metrics. Only a completed transfer completes its row and adds one registry entry: a declined
      or failed transfer leaves its row pending. */
  method InitiateMoneyTransfer(engine: FraudDetectionEngine, store: PSPPluginStore, table: TransactionTable,
                               t: TransferData, env: Environment, template: string) returns (r: TransferResult)
    requires engine.Valid() && store.Valid() && ValidOutcomes(env.outcomeFor)
    modifies engine, table`rows, store`transactionHistory, store`performanceMetrics, store.plugins.Values
    ensures engine.Valid() && store.Valid()
    ensures CheckBlacklist(env.blacklist) ==>
              && r == Blocked(SecurityPolicyMessage) && unchanged(engine) && table.rows == old(table.rows)
              && Snapshot(store.plugins) == old(Snapshot(store.plugins))
    ensures !CheckBlacklist(env.blacklist) ==>
              var a := Assessment(old(engine.timestamps), old(engine.amounts), old(engine.locations), old(engine.devices),
                                  FraudInput(t, env), env.cardDraw);
              var route := old(Route(store.ActiveProviders(), RoutingRequestOf(t), env.sine));
              && r == TransferOf(t, env, template, a, route, store.plugins)
              && table.rows == (if r.Done? then UpdatedRows(PendingRows(old(table.rows), t, env), env.pendingId,
                                                            UpdateFor(a, route.value, r.response.selectedPSP), env.updateSucceeds)
                                else PendingRows(old(table.rows), t, env))
              && MetricsMoved(store.plugins, Snapshot(store.plugins), old(Snapshot(store.plugins)), Charged(t, env, a, route, store.plugins), env.outcomeFor)
    ensures !CheckBlacklist(env.blacklist) ==> engine.State() == Screened(old(engine.State()), t, env, r.FraudDeclined?)
    ensures store.transactionHistory ==
              old(store.transactionHistory) + (if r.Done? then [HistoryEntry(TransferRecord(r.response), env.recordedAt)] else [])
    ensures store.performanceMetrics ==
              if r.Done? then MetricsAfter(old(store.performanceMetrics), TransferRecord(r.response)) else old(store.performanceMetrics)
  {
    if CheckBlacklist(env.blacklist) {
      return Blocked(SecurityPolicyMessage);
    }
    ghost var route := Route(store.ActiveProviders(), RoutingRequestOf(t), env.sine);
    ghost var before := Snapshot(store.plugins);
    table.Insert(env.pendingId, PendingRow(t), env.insertSucceeds);
    StoreUntouched(store);
    r := ScreenAndSettle(engine, store, table, t, env, template, route, before);
  }

  // ---------------------------------------------------------------------------
  // Properties of a transfer

  /** Without a preferred provider the routing engine's choice is always registered, so a routed
      transfer never fails for lack of a provider. */
  lemma OptimalIsRegistered(store: PSPPluginStore, req: RoutingRequest, sine: real -> real)
    requires store.Valid() && Route(store.ActiveProviders(), req, sine).Ok?
    ensures Route(store.ActiveProviders(), req, sine).value.optimal.pspName in store.plugins
  {
    var ps := store.ActiveProviders();
    var analysis := Route(ps, req, sine).value;
    var cs := Candidates(ps, req, sine).value;
    RouteOptimalIsCheapest(ps, req, sine);
    var best := analysis.allCandidates[0];
    assert best in multiset(cs);
    var j :| 0 <= j < |cs| && cs[j] == best;
    CandidatesAreSupporting(ps, req, sine);
    assert Names(cs)[j] == best.pspName;
    SupportingNamesFromProviders(ps, req.toCurrency, best.pspName);
    var i :| 0 <= i < |ps| && ps[i].name == best.pspName;
    assert ps[i] in store.plugins.Values;
    var n :| n in store.plugins && store.plugins[n] == ps[i];
    assert n == ps[i].name;
  }

  /** A transfer without a preferred provider that passes the fraud check and is routed never fails
      with the missing-provider error. */
  lemma AutoSelectionHasProvider(store: PSPPluginStore, t: TransferData, env: Environment, template: string, a: RiskAssessment)
    requires store.Valid() && !Truthy(t.preferredProvider)
    ensures TransferOf(t, env, template, a, Route(store.ActiveProviders(), RoutingRequestOf(t), env.sine), store.plugins)
            != Failed(UndefinedProvider)
  {
    var route := Route(store.ActiveProviders(), RoutingRequestOf(t), env.sine);
    CandidatesFailOnlyOnBaseRate(store.ActiveProviders(), RoutingRequestOf(t), env.sine);
    if route.Ok? {
      OptimalIsRegistered(store, RoutingRequestOf(t), env.sine);
    }
    RegisteredNeverUndefined(t, env, template, a, route, store.plugins);
  }

  /** A route whose error is not the missing-provider error and whose selected provider is
      registered never fails with that error. */
  lemma RegisteredNeverUndefined(t: TransferData, env: Environment, template: string, a: RiskAssessment,
                                 route: Result<RoutingAnalysis>, plugins: map<string, Provider>)
    requires route.Err? ==> route.error == "getExchangeRate() must be implemented" || route.error == NoSuitablePsp
    requires route.Ok? ==> SelectedName(t, route.value) in plugins
    ensures TransferOf(t, env, template, a, route, plugins) != Failed(UndefinedProvider)
  {
    if !CheckBlacklist(env.blacklist) && a.action != Decline && route.Ok? {
      SettledOutcomes(t, env, template, a, route.value, plugins);
    }
  }

  /** No listed alternative is cheaper than the chosen route: every cost difference is unsigned. */
  lemma AlternativesNotCheaper(ps: seq<Provider>, req: RoutingRequest, sine: real -> real)
    requires Route(ps, req, sine).Ok?
    ensures var vs := AlternativeViews(Route(ps, req, sine).value);
      forall i :: 0 <= i < |vs| ==> vs[i].costDifference[0] != '-'
  {
    var analysis := Route(ps, req, sine).value;
    RouteOptimalIsCheapest(ps, req, sine);
    var all := analysis.allCandidates;
    var vs := AlternativeViews(analysis);
    forall i | 0 <= i < |vs|
      ensures vs[i].costDifference[0] != '-'
    {
      assert analysis.alternatives[i] == all[i + 1];
      assert Weight(all[0]) <= Weight(all[i + 1]);
    }
  }

  /** The receipt of a completed transfer: always generated, for the transfer's amount, provider and
      provider transaction id, with the e-mail fallbacks and a success status. */
  lemma CompletedReceipt(t: TransferData, env: Environment, template: string, a: RiskAssessment,
                         route: Result<RoutingAnalysis>, plugins: map<string, Provider>)
    ensures var r := TransferOf(t, env, template, a, route, plugins);
      r.Done? ==>
      && r.response.receipt.Some?
      && r.response.receipt.value.success == env.receiptSaved
      && r.response.receipt.value.data.transactionId == Some(r.response.transactionId)
      && r.response.receipt.value.data.amount == ToFixed(t.amount, 2)
      && r.response.receipt.value.data.pspName == r.response.selectedPSP
      && r.response.receipt.value.data.senderEmail == OrNotAvailable(t.senderEmail)
      && r.response.receipt.value.data.recipientEmail == OrNotAvailable(t.recipientEmail)
      && r.response.receipt.value.data.statusText == "Payment Successful"
  {
    var r := TransferOf(t, env, template, a, route, plugins);
    if r.Done? {
      var input := ReceiptInputFor(t, env, route.value, r.response.selectedPSP, r.response.transactionId);
      assert ReceiptOf(template, input).Ok?;
      assert IsSuccess(StatusOf(input));
    }
  }

  /** A customer's preferred provider replaces only the name: the reported exchange rate, costs and
      score of a completed transfer are those of the routing optimal. */
  lemma OverrideKeepsOptimalCosts(t: TransferData, env: Environment, template: string, a: RiskAssessment,
                                  route: Result<RoutingAnalysis>, plugins: map<string, Provider>)
    ensures var r := TransferOf(t, env, template, a, route, plugins);
      r.Done? ==>
      && route.Ok?
      && r.response.selectedPSP == (if Truthy(t.preferredProvider) then t.preferredProvider.value else route.value.optimal.pspName)
      && r.response.exchangeRate == route.value.optimal.exchangeRate
      && r.response.costs == Costs(route.value.optimal.breakdown.commission, route.value.optimal.breakdown.fxCost,
                                   route.value.optimal.breakdown.totalScore)
      && r.response.selectedScore == route.value.optimal.expectedScore
  {
  }

  // ---------------------------------------------------------------------------
  // The smart receipt

  datatype SmartReceipt = SmartReceipt(
    transactionId: string,
    amount: real,
    currency: Option<string>,
    selectedRoute: string,
    base: real,
    pspFee: real,
    fxCost: real,
    totalCost: real,
    compared: AlternativeView,
    estimatedSavings: string,
    status: string,
    recommendation: string)

  /** The TypeError of `alternatives[0].costDifference` without alternatives. */
  const NoAlternative: string := "Cannot read properties of undefined (reading 'costDifference')"

  /** `parseFloat(v).toFixed(2)` on the text `toFixed` writes: `None` stands for text that is not a
      decimal numeral, which parses to NaN. */
  function Refixed(v: Option<real>): string {
    match v
    case Some(x) => ToFixed(x, 2)
    case None => "NaN"
  }

  /** `getSmartReceipt` of a completed transfer's response: the breakdown of its costs, the first
      alternative and the savings against it. */
  function GetSmartReceipt(resp: TransferResponse): (r: Result<SmartReceipt>)
    ensures r.Err? <==> resp.alternatives == []
    ensures r.Err? ==> r.error == NoAlternative
    ensures r.Ok? ==> r.value.compared == resp.alternatives[0] && r.value.status == "COMPLETED"
    ensures r.Ok? ==> r.value.base == resp.amount && r.value.pspFee == resp.costs.commission
                      && r.value.fxCost == resp.costs.fxCost && r.value.totalCost == resp.costs.totalCost
  {
    if resp.alternatives == [] then Err(NoAlternative)
    else
      var compared := resp.alternatives[0];
      var difference := DecimalValue(compared.costDifference);
      var saved := match difference
        case Some(d) => Some(d - resp.costs.totalCost)
        case None => None;
      Ok(SmartReceipt(resp.transactionId, resp.amount, resp.toCurrency, resp.selectedPSP, resp.amount,
                      resp.costs.commission, resp.costs.fxCost, resp.costs.totalCost, compared, Refixed(difference),
                      "COMPLETED", "✅ You saved $" + Refixed(saved) + " by using " + resp.selectedPSP))
  }

  /** The savings texts of a smart receipt whose first alternative's difference parses to `d`. */
  lemma SmartReceiptOfDifference(resp: TransferResponse, d: real)
    requires resp.alternatives != [] && DecimalValue(resp.alternatives[0].costDifference) == Some(d)
    ensures GetSmartReceipt(resp).Ok?
    ensures GetSmartReceipt(resp).value.estimatedSavings == ToFixed(d, 2)
    ensures GetSmartReceipt(resp).value.recommendation
            == "✅ You saved $" + ToFixed(d - resp.costs.totalCost, 2) + " by using " + resp.selectedPSP
  {
  }

  /** For a difference written by `toFixed(2)`, the estimated savings repeat that text (a "-0.00"
      loses its sign) and the recommendation subtracts the total cost from the number it denotes. */
  lemma SmartReceiptSavings(resp: TransferResponse, x: real)
    requires resp.alternatives != [] && resp.alternatives[0].costDifference == ToFixed(x, 2)
    ensures GetSmartReceipt(resp).Ok?
    ensures var s := GetSmartReceipt(resp).value;
      && (x >= 0.0 || ScaledHalfUp(-x, 2) > 0 ==> s.estimatedSavings == ToFixed(x, 2))
      && (x < 0.0 && ScaledHalfUp(-x, 2) == 0 ==> s.estimatedSavings == "0.00")
      && s.recommendation == "✅ You saved $" + ToFixed(FixedValue(x, 2) - resp.costs.totalCost, 2) + " by using " + resp.selectedPSP
  {
    var v := FixedValue(x, 2);
    assert DecimalValue(resp.alternatives[0].costDifference) == Some(v) by { ParseToFixed(x, 2); }
    SmartReceiptOfDifference(resp, v);
    if x >= 0.0 || ScaledHalfUp(-x, 2) > 0 {
      assert ToFixed(v, 2) == ToFixed(x, 2) by { RefixedText(x, 2); }
    } else {
      assert ToFixed(v, 2) == "0.00" by { RefixedText(x, 2); ZeroToFixed(); }
    }
  }

  // ---------------------------------------------------------------------------
  // A card payment

  /** The fields of `cardPaymentData`; the selected provider defaults to Stripe. */
  datatype CardPaymentData = CardPaymentData(
    userId: UserId,
    amount: real,
    currency: Option<string>,
    cardToken: Option<string>,
    selectedPSP: Option<string>,
    ipAddress: Option<string>,
    deviceId: Option<string>)

  /** The clock readings (the fraud timestamp, the provider's clock, the transaction id's clock),
      the local hour, the fraud engine's random draw and the simulated provider outcomes. */
  datatype CardEnvironment = CardEnvironment(
    assessedAt: int,
    localHour: int,
    cardDraw: bool,
    outcomeFor: Kind -> Outcome,
    paymentClock: nat,
    idClock: nat,
    recordedAt: int)

  datatype CardResponse = CardResponse(
    transactionId: string,
    selectedPSP: string,
    amount: real,
    currency: Option<string>,
    cardLastFour: string,
    costs: Costs,
    riskAssessment: RiskAssessment)

  datatype CardResult =
    | CardDeclined(reason: string, riskAssessment: RiskAssessment)
    | CardFailed(error: string)
    | CardDone(response: CardResponse)

  /** The TypeError of `cardToken.substring` without a card token. */
  const NoCardToken: string := "Cannot read properties of undefined (reading 'substring')"

  /** `substring(0, 6)`: the first six characters, or all of a shorter token. */
  function CardPrefix(token: string): (p: string)
    ensures |p| <= 6 && (|token| >= 6 ==> |p| == 6) && (|token| < 6 ==> p == token)
    ensures p == token[..|p|]
  {
    if |token| < 6 then token else token[..6]
  }

  /** `substring(length - 4)`: the last four characters; a negative start counts as 0, so a
      shorter token is kept whole. */
  function LastFour(token: string): (s: string)
    ensures |s| <= 4 && (|token| >= 4 ==> |s| == 4) && (|token| < 4 ==> s == token)
    ensures s == token[|token| - |s|..]
  {
    if |token| < 4 then token else token[|token| - 4..]
  }

  function CardFraudInput(c: CardPaymentData, env: CardEnvironment, token: string): (d: TransactionData)
    ensures d.userId == c.userId && d.cardNumber == Some(CardPrefix(token))
  {
    TransactionData(c.amount, c.currency, c.userId, Some(CardPrefix(token)), c.ipAddress, c.deviceId,
                    env.assessedAt, env.localHour, None, None)
  }

  function CardRecord(resp: CardResponse, c: CardPaymentData, latency: real): (rec: TransactionRecord)
    ensures rec.success && rec.status == "COMPLETED" && rec.kind == "card_payment"
    ensures rec.transactionId == resp.transactionId && rec.selectedPSP == resp.selectedPSP
  {
    TransactionRecord(resp.transactionId, resp.selectedPSP, resp.amount, resp.currency, true, "COMPLETED",
                      c.userId, "card_payment", latency)
  }

  function CardProviderName(c: CardPaymentData): string {
    c.selectedPSP.GetOr("Stripe")
  }

  /** The answer of `processCardPayment` given the fraud assessment `a` of the token. The cost score
      is asked of an object in place of an amount, so its commission is NaN and every cost reads 0. */
  function CardPaymentOf(c: CardPaymentData, env: CardEnvironment, a: RiskAssessment, plugins: map<string, Provider>): (r: CardResult)
    ensures c.cardToken.None? ==> r == CardFailed(NoCardToken)
    ensures r.CardDeclined? <==> c.cardToken.Some? && a.action == Decline
    ensures r.CardDeclined? ==> r.reason == a.recommendation
    ensures c.cardToken.Some? && a.action != Decline && CardProviderName(c) !in plugins ==>
      r == CardFailed("PSP " + CardProviderName(c) + " not found")
    ensures r.CardDone? <==> CardCharged(c, a, plugins).Some? && env.outcomeFor(CardCharged(c, a, plugins).value.kind).Approved?
    ensures r.CardDone? ==> r.response.costs == Costs(0.0, 0.0, 0.0) && r.response.cardLastFour == LastFour(c.cardToken.value)
                            && r.response.transactionId == "card_" + NatToString(env.idClock)
  {
    match c.cardToken
    case None => CardFailed(NoCardToken)
    case Some(token) =>
      if a.action == Decline then CardDeclined(a.recommendation, a)
      else
        var name := CardProviderName(c);
        if name !in plugins then CardFailed("PSP " + name + " not found")
        else
          var k := plugins[name].kind;
          if k == Generic then CardFailed("processPayment() must be implemented")
          else
            match env.outcomeFor(k)
            case Rejected(_) => CardFailed(FailureMessage(k))
            case Approved(_) =>
              CardDone(CardResponse("card_" + NatToString(env.idClock), name, c.amount, c.currency, LastFour(token),
                                    Costs(0.0, 0.0, 0.0), a))
  }

  /** The provider whose simulated call runs for a card payment, if the payment gets that far. */
  function CardCharged(c: CardPaymentData, a: RiskAssessment, plugins: map<string, Provider>): (p: Option<Provider>)
    ensures p.Some? ==> p.value.kind != Generic && p.value in plugins.Values
  {
    var name := CardProviderName(c);
    if c.cardToken.None? || a.action == Decline || name !in plugins || plugins[name].kind == Generic then None
    else Some(plugins[name])
  }

  /** The steps of a card payment after a fraud check that did not decline: the selected provider
      processes the payment, and only a completed payment adds a registry entry. */
  method ChargeCard(store: PSPPluginStore, c: CardPaymentData, env: CardEnvironment, a: RiskAssessment)
    returns (r: CardResult)
    requires store.Valid() && ValidOutcomes(env.outcomeFor)
    requires c.cardToken.Some? && a.action != Decline
    modifies store`transactionHistory, store`performanceMetrics, store.plugins.Values
    ensures store.Valid()
    ensures r == CardPaymentOf(c, env, a, store.plugins)
    ensures store.transactionHistory == old(store.transactionHistory) +
              if r.CardDone? then [HistoryEntry(CardRecord(r.response, c, Elapsed(env.outcomeFor(CardCharged(c, a, store.plugins).value.kind))), env.recordedAt)]
              else []
    ensures store.performanceMetrics ==
              if r.CardDone? then MetricsAfter(old(store.performanceMetrics), CardRecord(r.response, c, 0.0))
              else old(store.performanceMetrics)
    ensures MetricsMoved(store.plugins, Snapshot(store.plugins), old(Snapshot(store.plugins)), CardCharged(c, a, store.plugins), env.outcomeFor)
  {
    var selectedPSP := CardProviderName(c);
    var psp := store.GetPSP(selectedPSP);
    if psp.None? {
      SnapshotUnmoved(store.plugins, Snapshot(store.plugins), env.outcomeFor);
      return CardFailed("PSP " + selectedPSP + " not found");
    }
    var paymentResult := CallProvider(store, selectedPSP, c.amount, c.currency, env.paymentClock, env.outcomeFor);
    if paymentResult.Err? {
      return CardFailed(paymentResult.error);
    }
    var response := CardResponse("card_" + NatToString(env.idClock), selectedPSP, c.amount, c.currency, LastFour(c.cardToken.value),
                                 Costs(0.0, 0.0, 0.0), a);
    store.RecordTransaction(CardRecord(response, c, paymentResult.value.processingTime), env.recordedAt);
    r := CardDone(response);
  }

  /** The fraud step of a card payment: the token's prefix is assessed, and the engine records
      nothing for card payments. No provider changes. */
  method ScreenCard(engine: FraudDetectionEngine, store: PSPPluginStore, c: CardPaymentData, env: CardEnvironment,
                    ghost before: map<string, ProviderMetrics>) returns (a: RiskAssessment)
    requires engine.Valid() && store.Valid() && before == Snapshot(store.plugins)
    requires c.cardToken.Some?
    modifies engine
    ensures engine.Valid() && store.Valid() && before == Snapshot(store.plugins)
    ensures a == Assessment(old(engine.timestamps), old(engine.amounts), old(engine.locations), old(engine.devices),
                            CardFraudInput(c, env, c.cardToken.value), env.cardDraw)
    ensures engine.State() == Assessed(old(engine.State()), CardFraudInput(c, env, c.cardToken.value))
  {
    a := engine.AssessRisk(CardFraudInput(c, env, c.cardToken.value), [], env.cardDraw);
    StoreUntouched(store);
  }

  /** `processCardPayment`. A missing token fails before the fraud engine runs; otherwise the token's
      prefix is assessed (the engine does not record card payments), and a payment the engine does
      not decline is charged as `ChargeCard` does. Only the charged provider has new metrics. */
  method ProcessCardPayment(engine: FraudDetectionEngine, store: PSPPluginStore, c: CardPaymentData, env: CardEnvironment)
    returns (r: CardResult)
    requires engine.Valid() && store.Valid() && ValidOutcomes(env.outcomeFor)
    modifies engine, store`transactionHistory, store`performanceMetrics, store.plugins.Values
    ensures engine.Valid() && store.Valid()
    ensures c.cardToken.None? ==> r == CardFailed(NoCardToken) && engine.State() == old(engine.State())
    ensures c.cardToken.Some? ==> engine.State() == Assessed(old(engine.State()), CardFraudInput(c, env, c.cardToken.value))
    ensures var assessed := Assessment(old(engine.timestamps), old(engine.amounts), old(engine.locations), old(engine.devices),
                                       CardFraudInput(c, env, c.cardToken.GetOr("")), env.cardDraw);
            var charged := CardCharged(c, assessed, store.plugins);
            && (c.cardToken.Some? ==> r == CardPaymentOf(c, env, assessed, store.plugins))
            && store.transactionHistory == old(store.transactionHistory) +
                 (if r.CardDone? then [HistoryEntry(CardRecord(r.response, c, Elapsed(env.outcomeFor(charged.value.kind))), env.recordedAt)]
                  else [])
            && MetricsMoved(store.plugins, Snapshot(store.plugins), old(Snapshot(store.plugins)), charged, env.outcomeFor)
    ensures store.performanceMetrics ==
              if r.CardDone? then MetricsAfter(old(store.performanceMetrics), CardRecord(r.response, c, 0.0))
              else old(store.performanceMetrics)
  {
    ghost var before := Snapshot(store.plugins);
    if c.cardToken.None? {
      SnapshotUnmoved(store.plugins, before, env.outcomeFor);
      return CardFailed(NoCardToken);
    }
    var fraudCheck := ScreenCard(engine, store, c, env, before);
    if fraudCheck.action == Decline {
      SnapshotUnmoved(store.plugins, before, env.outcomeFor);
      return CardDeclined(fraudCheck.recommendation, fraudCheck);
    }
    r := ChargeCard(store, c, env, fraudCheck);
  }
}
