/** The provider registry (backend/src/psp/PSPPluginStore.js): providers by name in registration
    order, per-provider counters, an append-only transaction history and the routing mode. */
module PluginStore {
  import opened Wrappers
  import opened Formatting
  import opened Providers

  /** A counter's success rate: the number 100 until the first record, then the text `toFixed(2)` produced. */
  datatype RateValue = Number(value: real) | Text(text: string)

  datatype PspMetrics = PspMetrics(
    totalTransactions: nat,
    successfulTransactions: nat,
    failedTransactions: nat,
    totalVolume: real,
    avgLatency: real,
    successRate: RateValue)

  const FreshMetrics := PspMetrics(0, 0, 0, 0.0, 0.0, Number(100.0))

  /** The fields of a recorded transaction; `kind` is the source's `type` field. */
  datatype TransactionRecord = TransactionRecord(
    transactionId: string,
    selectedPSP: string,
    amount: real,
    currency: Option<string>,
    success: bool,
    status: string,
    userId: string,
    kind: string,
    processingTime: real)

  datatype HistoryEntry = HistoryEntry(record: TransactionRecord, recordedAt: int)

  /** One row of `getPSPList`. */
  datatype PspSummary = PspSummary(
    name: string,
    supportedCurrencies: seq<string>,
    priority: real,
    isActive: bool,
    avgLatency: real,
    successRate: real)

  /** The counters after one more recorded transaction of `amount`. */
  function Bump(m: PspMetrics, amount: real, success: bool): (r: PspMetrics)
    ensures r.totalTransactions == m.totalTransactions + 1
    ensures r.successfulTransactions == m.successfulTransactions + (if success then 1 else 0)
    ensures r.failedTransactions == m.failedTransactions + (if success then 0 else 1)
    ensures r.totalVolume == m.totalVolume + amount && r.avgLatency == m.avgLatency
    ensures r.successRate == Text(ToFixed(SuccessPercent(r.successfulTransactions, r.totalTransactions), 2))
    ensures m.successfulTransactions + m.failedTransactions == m.totalTransactions ==>
      r.successfulTransactions + r.failedTransactions == r.totalTransactions
  {
    var total := m.totalTransactions + 1;
    var successful := m.successfulTransactions + (if success then 1 else 0);
    var failed := m.failedTransactions + (if success then 0 else 1);
    PspMetrics(total, successful, failed, m.totalVolume + amount, m.avgLatency,
               Text(ToFixed(SuccessPercent(successful, total), 2)))
  }

  /** The counters after `record`: only a provider that has counters gets one more transaction. */
  function MetricsAfter(metrics: map<string, PspMetrics>, record: TransactionRecord): (r: map<string, PspMetrics>)
    ensures r.Keys == metrics.Keys
    ensures forall n :: n in metrics && n != record.selectedPSP ==> r[n] == metrics[n]
    ensures record.selectedPSP in metrics ==>
      r[record.selectedPSP] == Bump(metrics[record.selectedPSP], record.amount, record.success)
    ensures CountersValid(metrics) ==> CountersValid(r)
  {
    if record.selectedPSP in metrics
    then metrics[record.selectedPSP := Bump(metrics[record.selectedPSP], record.amount, record.success)]
    else metrics
  }

  /** `successful / total * 100`. */
  function SuccessPercent(successful: nat, total: nat): (p: real)
    requires total > 0
    ensures successful <= total ==> 0.0 <= p <= 100.0
  {
    (successful as real / total as real) * 100.0
  }

  /** The rate text has no sign and denotes the exact percentage to within half a hundredth. */
  lemma SuccessRateText(successful: nat, total: nat)
    requires 0 < total && successful <= total
    ensures var p := SuccessPercent(successful, total);
      ToFixed(p, 2)[0] != '-' && -0.005 <= FixedValue(p, 2) - p <= 0.005
  {
    var p := SuccessPercent(successful, total);
    var v := FixedValue(p, 2);
    assert -0.5 <= (v - p) * 100.0 <= 0.5;
  }

  function Reverse<T>(s: seq<T>): (r: seq<T>)
    ensures |r| == |s|
    ensures forall i :: 0 <= i < |s| ==> r[i] == s[|s| - 1 - i]
  {
    if s == [] then [] else Reverse(s[1..]) + [s[0]]
  }

  /** `slice(-n)` followed by `reverse()`. A positive `n` keeps the last `n` entries; `-0` is `0`,
      so `n == 0` keeps all of them; a negative `n` drops the first `-n`. */
  function LastReversed<T>(s: seq<T>, n: int): (r: seq<T>)
    ensures n > 0 ==> |r| == (if n < |s| then n else |s|)
    ensures n == 0 ==> |r| == |s|
    ensures |r| <= |s|
    ensures forall i :: 0 <= i < |r| ==> r[i] == s[|s| - 1 - i]
  {
    var start := if n > 0 then (if |s| - n > 0 then |s| - n else 0)
                 else (if -n < |s| then -n else |s|);
    Reverse(s[start..])
  }

  /** A fresh adapter, described only by what the registry relies on. */
  method NewAdapter(k: Kind) returns (p: Provider)
    requires k != Generic
    ensures fresh(p) && p.Valid() && p.kind == k && p.name == KindName(k) && p.isActive
  {
    p := new Provider.Adapter(k);
  }

  /** `order` lists the registered names, each once. */
  ghost predicate OrderMatches(plugins: map<string, Provider>, order: seq<string>) {
    && (forall i, j :: 0 <= i < j < |order| ==> order[i] != order[j])
    && (forall n :: n in order <==> n in plugins)
  }

  ghost predicate ProvidersValid(plugins: map<string, Provider>)
    reads plugins.Values
  {
    forall n :: n in plugins ==> plugins[n].name == n && plugins[n].Valid()
  }

  ghost predicate CountersValid(metrics: map<string, PspMetrics>) {
    forall n :: n in metrics ==>
      metrics[n].successfulTransactions + metrics[n].failedTransactions == metrics[n].totalTransactions
  }

  function DefaultNames(): seq<string> {
    ["Stripe", "Wise", "PayPal", "İyzico"]
  }

  function DefaultPlugins(stripe: Provider, wise: Provider, paypal: Provider, iyzico: Provider): map<string, Provider> {
    map["Stripe" := stripe, "Wise" := wise, "PayPal" := paypal, "İyzico" := iyzico]
  }

  function DefaultMetrics(): map<string, PspMetrics> {
    map["Stripe" := FreshMetrics, "Wise" := FreshMetrics, "PayPal" := FreshMetrics, "İyzico" := FreshMetrics]
  }

  lemma DefaultOrder(stripe: Provider, wise: Provider, paypal: Provider, iyzico: Provider)
    ensures OrderMatches(DefaultPlugins(stripe, wise, paypal, iyzico), DefaultNames())
    ensures DefaultPlugins(stripe, wise, paypal, iyzico).Keys == DefaultMetrics().Keys
    ensures CountersValid(DefaultMetrics())
  {
  }

  lemma DefaultProviders(stripe: Provider, wise: Provider, paypal: Provider, iyzico: Provider)
    requires stripe.Valid() && wise.Valid() && paypal.Valid() && iyzico.Valid()
    requires stripe.kind == Stripe && wise.kind == Wise && paypal.kind == PayPal && iyzico.kind == Iyzico
    requires stripe.name == "Stripe" && wise.name == "Wise" && paypal.name == "PayPal" && iyzico.name == "İyzico"
    ensures ProvidersValid(DefaultPlugins(stripe, wise, paypal, iyzico))
    ensures var ps := DefaultPlugins(stripe, wise, paypal, iyzico);
      forall n :: n in ps ==> ps[n] in {stripe, wise, paypal, iyzico} && ps[n].kind != Generic && KindName(ps[n].kind) == n
  {
  }

  class PSPPluginStore {
    var plugins: map<string, Provider>
    /** The names of `plugins` in insertion order (the order `Object.values` lists names that are
        not integer-like). */
    var order: seq<string>
    var performanceMetrics: map<string, PspMetrics>
    var transactionHistory: seq<HistoryEntry>
    var currentMode: Option<string>

    /** Every registered name appears once in `order` and has counters; a provider is filed under its
        own name and keeps its metrics valid; the counters split every transaction into a success or a failure. */
    ghost predicate Valid()
      reads this, plugins.Values
    {
      && OrderMatches(plugins, order)
      && plugins.Keys == performanceMetrics.Keys
      && ProvidersValid(plugins)
      && CountersValid(performanceMetrics)
    }

    /** `initializeDefaultPSPs`: Stripe, Wise, PayPal and İyzico, registered in that order
        (the state four `RegisterPSP` calls on an empty store leave). */
    constructor ()
      ensures Valid()
      ensures order == DefaultNames() && performanceMetrics == DefaultMetrics()
      ensures forall n :: n in plugins ==>
        plugins[n].kind != Generic && KindName(plugins[n].kind) == n && plugins[n].isActive && fresh(plugins[n])
      ensures transactionHistory == [] && currentMode == None
    {
      var stripe := NewAdapter(Stripe);
      var wise := NewAdapter(Wise);
      var paypal := NewAdapter(PayPal);
      var iyzico := NewAdapter(Iyzico);
      plugins := DefaultPlugins(stripe, wise, paypal, iyzico);
      order := DefaultNames();
      performanceMetrics := DefaultMetrics();
      transactionHistory := [];
      currentMode := None;
      DefaultOrder(stripe, wise, paypal, iyzico);
      DefaultProviders(stripe, wise, paypal, iyzico);
    }

    /** `registerPSP`: files the provider under its name (an existing name keeps its place in the
        order) and resets that name's counters. */
    method RegisterPSP(p: Provider)
      requires Valid() && p.Valid()
      modifies this
      ensures Valid()
      ensures plugins == old(plugins)[p.name := p]
      ensures order == if p.name in old(plugins) then old(order) else old(order) + [p.name]
      ensures performanceMetrics == old(performanceMetrics)[p.name := FreshMetrics]
      ensures transactionHistory == old(transactionHistory) && currentMode == old(currentMode)
    {
      if p.name !in plugins {
        order := order + [p.name];
      }
      plugins := plugins[p.name := p];
      performanceMetrics := performanceMetrics[p.name := FreshMetrics];
    }

    function GetPSP(name: string): (r: Option<Provider>)
      reads this
      ensures r.Some? <==> name in plugins
      ensures r.Some? ==> r.value == plugins[name]
    {
      if name in plugins then Some(plugins[name]) else None
    }

    /** The active providers among `names`, in that order. */
    function ActiveAmong(names: seq<string>): (r: seq<Provider>)
      requires forall n :: n in names ==> n in plugins
      reads this, plugins.Values
      ensures forall i :: 0 <= i < |r| ==> r[i].isActive
      ensures forall n :: n in names && plugins[n].isActive ==> plugins[n] in r
      ensures |r| <= |names|
      ensures |names| == 1 ==> r == if plugins[names[0]].isActive then [plugins[names[0]]] else []
    {
      if names == [] then []
      else
        var rest := ActiveAmong(names[1..]);
        assert forall n :: n in names[1..] ==> n in names;
        var p := plugins[names[0]];
        if p.isActive then [p] + rest else rest
    }

    /** Every provider the filter keeps is filed under one of `names`. */
    lemma {:induction false} ActiveAmongRegistered(names: seq<string>)
      requires forall n :: n in names ==> n in plugins
      ensures forall i :: 0 <= i < |ActiveAmong(names)| ==> exists n :: n in names && plugins[n] == ActiveAmong(names)[i]
    {
      if names != [] {
        var tail := names[1..];
        assert forall n :: n in tail ==> n in names;
        ActiveAmongRegistered(tail);
        var r, rest, p := ActiveAmong(names), ActiveAmong(tail), plugins[names[0]];
        assert r == (if p.isActive then [p] else []) + rest;
        forall i | 0 <= i < |r| ensures exists n :: n in names && plugins[n] == r[i] {
          if p.isActive && i == 0 {
            assert names[0] in names && plugins[names[0]] == r[i];
          } else {
            var j := if p.isActive then i - 1 else i;
            assert r[i] == rest[j];
            var n :| n in tail && plugins[n] == rest[j];
            assert n in names;
          }
        }
      } else {
        assert ActiveAmong(names) == [];
      }
    }

    /** The filter keeps the order of `names`: the active providers of a concatenation are those of
        its first part followed by those of its second. */
    lemma {:induction false} ActiveAmongAppend(a: seq<string>, b: seq<string>)
      requires forall n :: n in a ==> n in plugins
      requires forall n :: n in b ==> n in plugins
      ensures forall n :: n in a + b ==> n in plugins
      ensures ActiveAmong(a + b) == ActiveAmong(a) + ActiveAmong(b)
    {
      if a == [] {
        assert a + b == b;
      } else {
        var p := plugins[a[0]];
        var head := if p.isActive then [p] else [];
        var c := a + b;
        assert forall n :: n in a[1..] ==> n in a;
        assert forall n :: n in c ==> n in plugins by {
          forall n | n in c ensures n in plugins {
            assert n in a || n in b;
          }
        }
        assert forall n :: n in c[1..] ==> n in c;
        var x, y := ActiveAmong(a[1..]), ActiveAmong(b);
        calc {
          ActiveAmong(c);
        == { assert c[0] == a[0]; }
          head + ActiveAmong(c[1..]);
        == { assert c[1..] == a[1..] + b; }
          head + ActiveAmong(a[1..] + b);
        == { ActiveAmongAppend(a[1..], b); }
          head + (x + y);
        ==
          (head + x) + y;
        == { assert ActiveAmong(a) == head + x; }
          ActiveAmong(a) + y;
        }
      }
    }

    /** Distinct names filed under their own names give distinct providers. */
    lemma {:induction false} ActiveAmongDistinct(names: seq<string>)
      requires forall n :: n in names ==> n in plugins && plugins[n].name == n
      requires forall i, j :: 0 <= i < j < |names| ==> names[i] != names[j]
      ensures forall i, j :: 0 <= i < j < |ActiveAmong(names)| ==> ActiveAmong(names)[i] != ActiveAmong(names)[j]
    {
      if names != [] {
        var tail := names[1..];
        assert forall n :: n in tail ==> n in names;
        ActiveAmongDistinct(tail);
        ActiveAmongRegistered(tail);
        var rest := ActiveAmong(tail);
        forall j | 0 <= j < |rest| ensures rest[j].name != names[0] {
          var n :| n in tail && plugins[n] == rest[j];
        }
      }
    }

    /** `getAllActivePSPs`: exactly the registered providers whose `isActive` is set, each once. */
    function ActiveProviders(): (r: seq<Provider>)
      requires Valid()
      reads this, plugins.Values
      ensures forall i :: 0 <= i < |r| ==> r[i].isActive && r[i] in plugins.Values
      ensures forall n :: n in plugins && plugins[n].isActive ==> plugins[n] in r
      ensures forall i, j :: 0 <= i < j < |r| ==> r[i] != r[j]
    {
      ActiveAmongDistinct(order);
      ActiveAmongRegistered(order);
      ActiveAmong(order)
    }

    /** The active providers come in registration order (`order`): at any point of the order, those
        registered before it come first, followed by those registered after it. */
    lemma ActiveProvidersInOrder(k: nat)
      requires Valid() && k <= |order|
      ensures ActiveProviders() == ActiveAmong(order[..k]) + ActiveAmong(order[k..])
    {
      assert order == order[..k] + order[k..];
      ActiveAmongAppend(order[..k], order[k..]);
    }

    function Summary(p: Provider): PspSummary
      reads p
    {
      PspSummary(p.name, p.supportedCurrencies, p.priority, p.isActive, p.avgLatency, p.successRate)
    }

    function SummariesOf(names: seq<string>): (r: seq<PspSummary>)
      requires forall n :: n in names ==> n in plugins
      reads this, plugins.Values
      ensures |r| == |names|
      ensures forall i :: 0 <= i < |names| ==> r[i] == Summary(plugins[names[i]])
    {
      if names == [] then []
      else
        assert forall n :: n in names[1..] ==> n in names;
        [Summary(plugins[names[0]])] + SummariesOf(names[1..])
    }

    /** `getPSPList`: one summary per registered provider, in registration order. */
    function GetPSPList(): (r: seq<PspSummary>)
      requires Valid()
      reads this, plugins.Values
      ensures |r| == |order|
      ensures forall i :: 0 <= i < |order| ==> r[i].name == order[i] && r[i] == Summary(plugins[order[i]])
    {
      SummariesOf(order)
    }

    /** `updatePSPStatus`: an unknown name is an error and changes nothing; a known one changes
        that provider's `isActive` flag and nothing else. */
    method UpdatePSPStatus(name: string, isActive: bool) returns (r: Result<()>)
      requires Valid()
      modifies if name in plugins then {plugins[name]} else {}
      ensures Valid()
      ensures name !in plugins <==> r == Err("PSP not found")
      ensures name in plugins ==> r == Ok(()) && plugins[name].isActive == isActive
      ensures name in plugins ==>
        plugins[name].avgLatency == old(plugins[name].avgLatency) && plugins[name].successRate == old(plugins[name].successRate)
    {
      var psp := GetPSP(name);
      if psp.Some? {
        psp.value.isActive := isActive;
        return Ok(());
      }
      return Err("PSP not found");
    }

    /** `recordTransaction`: always appends exactly one history entry; only a registered provider's
        counters change. */
    method RecordTransaction(record: TransactionRecord, recordedAt: int)
      requires Valid()
      modifies this`transactionHistory, this`performanceMetrics
      ensures Valid()
      ensures transactionHistory == old(transactionHistory) + [HistoryEntry(record, recordedAt)]
      ensures performanceMetrics == MetricsAfter(old(performanceMetrics), record)
    {
      transactionHistory := transactionHistory + [HistoryEntry(record, recordedAt)];
      var pspName := record.selectedPSP;
      if pspName in performanceMetrics {
        var m := performanceMetrics[pspName];
        performanceMetrics := performanceMetrics[pspName := Bump(m, record.amount, record.success)];
      }
    }

    /** `getTransactionHistory(limit = 50)`: the last `limit` entries, newest first. */
    function GetTransactionHistory(limit: Option<int>): (r: seq<HistoryEntry>)
      reads this
      ensures |r| <= |transactionHistory|
      ensures forall i :: 0 <= i < |r| ==> r[i] == transactionHistory[|transactionHistory| - 1 - i]
      ensures limit.None? ==> |r| == if |transactionHistory| < 50 then |transactionHistory| else 50
      ensures limit.Some? && limit.value > 0 ==>
        |r| == if |transactionHistory| < limit.value then |transactionHistory| else limit.value
    {
      LastReversed(transactionHistory, limit.GetOr(50))
    }

    /** `enablePSPMode(mode = "balanced")`. */
    method EnablePSPMode(mode: Option<string>)
      modifies this`currentMode
      ensures currentMode == Some(mode.GetOr("balanced"))
    {
      currentMode := Some(mode.GetOr("balanced"));
    }

    /** `getCurrentMode`: the stored mode when it is a non-empty string, else "balanced". */
    function GetCurrentMode(): (m: string)
      reads this
      ensures Truthy(currentMode) ==> m == currentMode.value
      ensures !Truthy(currentMode) ==> m == "balanced"
      ensures m != ""
    {
      if Truthy(currentMode) then currentMode.value else "balanced"
    }
  }

  /** After a record, the history read back with any positive limit starts with the new entry. */
  lemma NewestFirst(history: seq<HistoryEntry>, e: HistoryEntry, n: int)
    requires n > 0
    ensures LastReversed(history + [e], n)[0] == e
  {
  }
}
