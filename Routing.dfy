/** The optimal routing engine (backend/src/routing/OptimalRoutingEngine.js): every active provider
    that supports the target currency is scored (its cost breakdown, a geographic adjustment with a
    small name-and-amount dependent variance, and a weighting chosen by the user's mode), the
    candidates are stably sorted by weighted score, and the cheapest wins. */
module Routing {
  import opened Wrappers
  import opened Formatting
  import opened Sorting
  import opened Providers
  import opened PluginStore

  /** The fields of the routing request the engine reads; an absent field is `None`. */
  datatype RoutingRequest = RoutingRequest(
    amount: real,
    fromCurrency: Option<string>,
    toCurrency: Option<string>,
    sourceCountry: Option<string>,
    destCountry: Option<string>,
    userMode: Option<string>)

  /** One scored provider. The source also keeps a reference to the provider object itself. */
  datatype Candidate = Candidate(
    pspName: string,
    originalScore: real,
    geoAdjustment: real,
    adjustedScore: real,
    weightedScore: real,
    breakdown: CostBreakdown,
    exchangeRate: real,
    recommendation: string)

  datatype Optimal = Optimal(pspName: string, expectedScore: real, breakdown: CostBreakdown, recommendation: string, exchangeRate: real)

  /** The result of `selectOptimalPSP`; the request echo and the timestamp of `analysis` are left out
      except for the mode. */
  datatype RoutingAnalysis = RoutingAnalysis(optimal: Optimal, alternatives: seq<Candidate>, allCandidates: seq<Candidate>, mode: string)

  /** The record `getNextAlternative` returns. */
  datatype Switch = Switch(switchReason: string, switchedAt: int, originalPSP: string)

  const NoSuitablePsp: string := "No suitable PSP found for this transaction"

  /** `userMode` defaults to "balanced" when absent. */
  function Mode(req: RoutingRequest): (m: string)
    ensures req.userMode.None? ==> m == "balanced"
    ensures req.userMode.Some? ==> m == req.userMode.value
  {
    req.userMode.GetOr("balanced")
  }

  // ---------------------------------------------------------------------------
  // Geographic score

  /** The per-provider table of geographic adjustments, keyed "source-destination" with `*` as a wildcard. */
  function GeoTable(pspName: string): map<string, real>
  {
    if pspName == "Wise" then map["TRY-USD" := -10.0, "TRY-EUR" := -10.0, "international" := -8.0]
    else if pspName == "İyzico" then map["TRY-*" := -15.0, "TRY-TRY" := -20.0]
    else if pspName == "Stripe" then map["USD-*" := -5.0, "*-USD" := -3.0]
    else if pspName == "PayPal" then map["*-*" := 0.0]
    else map[]
  }

  /** The table lookup of `calculateGeoScore`: the exact pair, then the source wildcard, then the
      destination wildcard, then the "international" entry for differing countries, else 0. Absent
      countries take part as the text "undefined", as template literals render them. */
  function GeoBase(pspName: string, sourceCountry: Option<string>, destCountry: Option<string>): (g: real)
    ensures -20.0 <= g <= 0.0
    ensures GeoTable(pspName) == map[] ==> g == 0.0
  {
    var t := GeoTable(pspName);
    var s := Show(sourceCountry);
    var d := Show(destCountry);
    if s + "-" + d in t then t[s + "-" + d]
    else if s + "-" + "*" in t then t[s + "-" + "*"]
    else if "*" + "-" + d in t then t["*" + "-" + d]
    else if sourceCountry != destCountry && "international" in t then t["international"]
    else 0.0
  }

  /** The adjustments written out per provider, independently of the key syntax. */
  function GeoReference(pspName: string, sourceCountry: Option<string>, destCountry: Option<string>): real
  {
    if pspName == "Wise" then
      if sourceCountry == Some("TRY") && (destCountry == Some("USD") || destCountry == Some("EUR")) then -10.0
      else if sourceCountry != destCountry then -8.0
      else 0.0
    else if pspName == "İyzico" then
      if sourceCountry == Some("TRY") then (if destCountry == Some("TRY") then -20.0 else -15.0) else 0.0
    else if pspName == "Stripe" then
      if sourceCountry == Some("USD") then -5.0 else if destCountry == Some("USD") then -3.0 else 0.0
    else 0.0
  }

  /** A key containing a dash is never a dash-free key such as "international". */
  lemma DashKeyIsNotPlain(a: string, b: string, w: string)
    requires NoDash(w)
    ensures a + "-" + b != w
  {
    assert (a + "-" + b)[|a|] == '-';
  }

  /** "undefined", the rendering of an absent country, is never a country code of the tables. */
  lemma ShowIs(c: Option<string>, code: string)
    requires code in {"TRY", "USD", "EUR", "*"}
    ensures Show(c) == code <==> c == Some(code)
  {
  }

  lemma GeoWise(sourceCountry: Option<string>, destCountry: Option<string>)
    ensures GeoBase("Wise", sourceCountry, destCountry) == GeoReference("Wise", sourceCountry, destCountry)
  {
    var s := Show(sourceCountry);
    var d := Show(destCountry);
    ShowIs(sourceCountry, "TRY"); ShowIs(destCountry, "USD"); ShowIs(destCountry, "EUR");
    assert "TRY-USD" == "TRY" + "-" + "USD" && "TRY-EUR" == "TRY" + "-" + "EUR";
    PairKeyMatches(s, d, "TRY", "USD");
    PairKeyMatches(s, d, "TRY", "EUR");
    PairKeyMatches(s, "*", "TRY", "USD");
    PairKeyMatches(s, "*", "TRY", "EUR");
    PairKeyMatches("*", d, "TRY", "USD");
    PairKeyMatches("*", d, "TRY", "EUR");
    DashKeyIsNotPlain(s, d, "international");
    DashKeyIsNotPlain(s, "*", "international");
    DashKeyIsNotPlain("*", d, "international");
  }

  lemma GeoIyzico(sourceCountry: Option<string>, destCountry: Option<string>)
    ensures GeoBase("İyzico", sourceCountry, destCountry) == GeoReference("İyzico", sourceCountry, destCountry)
  {
    var s := Show(sourceCountry);
    var d := Show(destCountry);
    ShowIs(sourceCountry, "TRY"); ShowIs(destCountry, "TRY"); ShowIs(destCountry, "*");
    assert "TRY-*" == "TRY" + "-" + "*" && "TRY-TRY" == "TRY" + "-" + "TRY";
    PairKeyMatches(s, d, "TRY", "*");
    PairKeyMatches(s, d, "TRY", "TRY");
    PairKeyMatches(s, "*", "TRY", "*");
    PairKeyMatches(s, "*", "TRY", "TRY");
    PairKeyMatches("*", d, "TRY", "*");
    PairKeyMatches("*", d, "TRY", "TRY");
  }

  lemma GeoStripe(sourceCountry: Option<string>, destCountry: Option<string>)
    ensures GeoBase("Stripe", sourceCountry, destCountry) == GeoReference("Stripe", sourceCountry, destCountry)
  {
    var s := Show(sourceCountry);
    var d := Show(destCountry);
    ShowIs(sourceCountry, "USD"); ShowIs(sourceCountry, "*"); ShowIs(destCountry, "USD"); ShowIs(destCountry, "*");
    assert "USD-*" == "USD" + "-" + "*" && "*-USD" == "*" + "-" + "USD";
    PairKeyMatches(s, d, "USD", "*");
    PairKeyMatches(s, d, "*", "USD");
    PairKeyMatches(s, "*", "USD", "*");
    PairKeyMatches(s, "*", "*", "USD");
    PairKeyMatches("*", d, "USD", "*");
    PairKeyMatches("*", d, "*", "USD");
  }

  /** The table lookup agrees with the per-provider description for every pair of countries. */
  lemma GeoBaseByProvider(pspName: string, sourceCountry: Option<string>, destCountry: Option<string>)
    ensures GeoBase(pspName, sourceCountry, destCountry) == GeoReference(pspName, sourceCountry, destCountry)
  {
    if pspName == "Wise" {
      GeoWise(sourceCountry, destCountry);
    } else if pspName == "İyzico" {
      GeoIyzico(sourceCountry, destCountry);
    } else if pspName == "Stripe" {
      GeoStripe(sourceCountry, destCountry);
    }
  }

  /** One step of the name hash: `(a << 5) - a + code`, truncated by `a & a` to 32 bits. */
  function HashStep(a: int, code: int): (h: int)
    ensures -TwoTo31 <= h < TwoTo31
  {
    ToInt32(ToInt32(a * 32) - a + code)
  }

  /** The shift-and-subtract step is multiplication by 31 modulo 2^32. */
  lemma HashStepIsTimes31(a: int, code: int)
    ensures HashStep(a, code) == ToInt32(31 * a + code)
  {
    var t := ToInt32(a * 32);
    var k := (a * 32 - t) / TwoTo32;
    assert a * 32 == t + k * TwoTo32;
    ToInt32Congruent(31 * a + code, t - a + code, k);
  }

  /** The hash of a name, folded from the left over its characters. */
  function NameHash(name: string): (h: int)
    ensures -TwoTo31 <= h < TwoTo31
  {
    if name == [] then 0 else HashStep(NameHash(name[..|name| - 1]), name[|name| - 1] as int)
  }

  function Abs(x: int): (r: nat)
    ensures r == x || r == -x
  {
    if x < 0 then -x else x
  }

  /** `Math.sin` is an input; every sine is bounded by 1 in magnitude. */
  ghost predicate BoundedSine(sine: real -> real) {
    forall x :: -1.0 <= sine(x) <= 1.0
  }

  /** The dynamic variance: three times the sine of `(|hash(name)| + amount) * 0.00001`. */
  function Variance(pspName: string, amount: real, sine: real -> real): (v: real)
    ensures BoundedSine(sine) ==> -3.0 <= v <= 3.0
  {
    sine((Abs(NameHash(pspName)) as real + amount) * 0.00001) * 3.0
  }

  /** `calculateGeoScore`: the table adjustment plus the variance, which moves it by at most 3. */
  function GeoScore(pspName: string, sourceCountry: Option<string>, destCountry: Option<string>, amount: real, sine: real -> real): (g: real)
    ensures g - GeoBase(pspName, sourceCountry, destCountry) == Variance(pspName, amount, sine)
    ensures BoundedSine(sine) ==> -23.0 <= g <= 3.0
  {
    GeoBase(pspName, sourceCountry, destCountry) + Variance(pspName, amount, sine)
  }

  // ---------------------------------------------------------------------------
  // Weighting and recommendation

  /** `applyModeWeighting`: "cheap" weighs the cost breakdown alone, "fast" weighs latency over cost,
      and any other mode keeps the geo-adjusted score. */
  function ApplyModeWeighting(baseScore: real, b: CostBreakdown, mode: string): (w: real)
    ensures mode == "cheap" ==> w == b.totalScore * 1.5
    ensures mode == "fast" ==> w == b.latencyPenalty * 2.5 + b.totalScore * 0.3
    ensures mode != "cheap" && mode != "fast" ==> w == baseScore
  {
    if mode == "cheap" then b.totalScore * 1.5
    else if mode == "fast" then b.latencyPenalty * 2.5 + b.totalScore * 0.3
    else baseScore
  }

  /** In the "cheap" and "fast" modes the geographic adjustment has no influence on the ranking. */
  lemma GeoIgnoredOutsideBalanced(x: real, y: real, b: CostBreakdown, mode: string)
    requires mode == "cheap" || mode == "fast"
    ensures ApplyModeWeighting(x, b, mode) == ApplyModeWeighting(y, b, mode)
  {
  }

  /** `getRecommendation`: a fixed text per known provider, otherwise the generic summary. */
  function GetRecommendation(pspName: string, b: CostBreakdown): (r: string)
    ensures pspName != "Wise" && pspName != "İyzico" && pspName != "Stripe" && pspName != "PayPal" ==>
      r == "Selected: " + pspName + ". Total estimated cost: " + ToFixed(b.totalScore, 2)
  {
    if pspName == "Wise" then "✈️ Best for international transfers. Low FX markup (" + ToFixed(b.fxCost, 2) + " FX cost). Fast processing."
    else if pspName == "İyzico" then "🇹🇷 Optimized for Turkish market. Best commission rates for TRY (" + ToFixed(b.commission, 2) + "). Fastest local processing."
    else if pspName == "Stripe" then "💳 Reliable card processor. Standard fees (" + ToFixed(b.commission, 2) + "). Industry standard uptime."
    else if pspName == "PayPal" then "🌐 Universal payment solution. Wide currency support. Covers most use cases."
    else "Selected: " + pspName + ". Total estimated cost: " + ToFixed(b.totalScore, 2)
  }

  // ---------------------------------------------------------------------------
  // Candidates

  /** `supportedCurrencies.includes(toCurrency)`. */
  predicate Supports(p: Provider, toCurrency: Option<string>)
    reads p
  {
    toCurrency.Some? && toCurrency.value in p.supportedCurrencies
  }

  /** The candidate record for a provider that supports the target currency, given its exchange rate. */
  function CandidateFor(p: Provider, req: RoutingRequest, rate: real, sine: real -> real): (c: Candidate)
    reads p
    ensures c.pspName == p.name && c.exchangeRate == rate
    ensures c.originalScore == c.breakdown.totalScore
    ensures c.breakdown == p.CalculateCostScore(req.amount, Show(req.fromCurrency), Show(req.toCurrency), rate)
    ensures c.adjustedScore == c.originalScore + c.geoAdjustment
    ensures c.geoAdjustment == GeoScore(p.name, req.sourceCountry, req.destCountry, req.amount, sine)
    ensures c.weightedScore == ApplyModeWeighting(c.adjustedScore, c.breakdown, Mode(req))
    ensures c.recommendation == GetRecommendation(p.name, c.breakdown)
  {
    var b := p.CalculateCostScore(req.amount, Show(req.fromCurrency), Show(req.toCurrency), rate);
    var geo := GeoScore(p.name, req.sourceCountry, req.destCountry, req.amount, sine);
    var adjusted := b.totalScore + geo;
    Candidate(p.name, b.totalScore, geo, adjusted, ApplyModeWeighting(adjusted, b, Mode(req)), b, rate, GetRecommendation(p.name, b))
  }

  /** The candidates of the scoring loop over `ps`, in order; the first exchange-rate failure aborts it. */
  function Candidates(ps: seq<Provider>, req: RoutingRequest, sine: real -> real): (r: Result<seq<Candidate>>)
    reads set i | 0 <= i < |ps| :: ps[i]
    ensures r.Ok? ==> |r.value| <= |ps|
  {
    if ps == [] then Ok([])
    else
      var init := ps[..|ps| - 1];
      var p := ps[|ps| - 1];
      assert forall i :: 0 <= i < |init| ==> init[i] == ps[i];
      var prefix :- Candidates(init, req, sine);
      if !Supports(p, req.toCurrency) then Ok(prefix)
      else
        match p.GetExchangeRate(Show(req.fromCurrency), Show(req.toCurrency))
        case Err(e) => Err(e)
        case Ok(rate) => Ok(prefix + [CandidateFor(p, req, rate, sine)])
  }

  /** Once a prefix of the providers fails, the whole loop fails with the same error. */
  lemma {:induction false} CandidatesFailurePersists(ps: seq<Provider>, i: nat, req: RoutingRequest, sine: real -> real)
    requires i <= |ps|
    requires Candidates(ps[..i], req, sine).Err?
    ensures Candidates(ps, req, sine) == Candidates(ps[..i], req, sine)
    decreases |ps| - i
  {
    if i < |ps| {
      assert ps[..i + 1][..i] == ps[..i];
      assert Candidates(ps[..i + 1], req, sine) == Candidates(ps[..i], req, sine);
      CandidatesFailurePersists(ps, i + 1, req, sine);
    } else {
      assert ps[..i] == ps;
    }
  }

  /** The names of the providers in `ps` that support the target currency, in order. */
  function SupportingNames(ps: seq<Provider>, toCurrency: Option<string>): seq<string>
    reads set i | 0 <= i < |ps| :: ps[i]
  {
    if ps == [] then []
    else
      var init := ps[..|ps| - 1];
      assert forall i :: 0 <= i < |init| ==> init[i] == ps[i];
      var p := ps[|ps| - 1];
      SupportingNames(init, toCurrency) + (if Supports(p, toCurrency) then [p.name] else [])
  }

  /** Every supporting name is the name of one of the providers. */
  lemma {:induction false} SupportingNamesFromProviders(ps: seq<Provider>, toCurrency: Option<string>, n: string)
    requires n in SupportingNames(ps, toCurrency)
    ensures exists i :: 0 <= i < |ps| && ps[i].name == n
  {
    var init := ps[..|ps| - 1];
    assert forall i :: 0 <= i < |init| ==> init[i] == ps[i];
    if n !in SupportingNames(init, toCurrency) {
      assert ps[|ps| - 1].name == n;
    } else {
      SupportingNamesFromProviders(init, toCurrency, n);
    }
  }

  function Names(cs: seq<Candidate>): (r: seq<string>)
    ensures |r| == |cs| && forall i :: 0 <= i < |cs| ==> r[i] == cs[i].pspName
  {
    if cs == [] then [] else Names(cs[..|cs| - 1]) + [cs[|cs| - 1].pspName]
  }

  /** When the loop succeeds, the candidates are exactly the supporting providers, in provider order:
      an unsupported currency is the only reason to skip a provider. */
  lemma {:induction false} CandidatesAreSupporting(ps: seq<Provider>, req: RoutingRequest, sine: real -> real)
    requires Candidates(ps, req, sine).Ok?
    ensures Names(Candidates(ps, req, sine).value) == SupportingNames(ps, req.toCurrency)
  {
    if ps != [] {
      var init := ps[..|ps| - 1];
      assert forall i :: 0 <= i < |init| ==> init[i] == ps[i];
      CandidatesAreSupporting(init, req, sine);
      var cs := Candidates(ps, req, sine).value;
      var pre := Candidates(init, req, sine).value;
      if Supports(ps[|ps| - 1], req.toCurrency) {
        assert cs[..|cs| - 1] == pre;
      } else {
        assert cs == pre;
      }
    }
  }

  /** Adapters never fail to give a rate, so a loop over adapters always succeeds. */
  lemma {:induction false} AdaptersAlwaysRate(ps: seq<Provider>, req: RoutingRequest, sine: real -> real)
    requires forall i :: 0 <= i < |ps| ==> ps[i].kind != Generic
    ensures Candidates(ps, req, sine).Ok?
  {
    if ps != [] {
      var init := ps[..|ps| - 1];
      assert forall i :: 0 <= i < |init| ==> init[i] == ps[i];
      AdaptersAlwaysRate(init, req, sine);
    }
  }

  // ---------------------------------------------------------------------------
  // Selection

  function Weight(c: Candidate): real {
    c.weightedScore
  }

  function OptimalOf(c: Candidate): Optimal {
    Optimal(c.pspName, c.weightedScore, c.breakdown, c.recommendation, c.exchangeRate)
  }

  function Min(a: int, b: int): int {
    if a < b then a else b
  }

  /** The result of `selectOptimalPSP` for the active providers `ps`: no candidate is an error; otherwise
      the candidates are sorted by weighted score (a stable permutation), the first is optimal and the
      next up to three are the alternatives. */
  function Route(ps: seq<Provider>, req: RoutingRequest, sine: real -> real): (r: Result<RoutingAnalysis>)
    reads set i | 0 <= i < |ps| :: ps[i]
    ensures Candidates(ps, req, sine).Err? ==> r == Err(Candidates(ps, req, sine).error)
    ensures Candidates(ps, req, sine) == Ok([]) ==> r == Err(NoSuitablePsp)
    ensures r.Ok? ==> Candidates(ps, req, sine).Ok? && r.value.allCandidates == SortBy(Candidates(ps, req, sine).value, Weight)
    ensures r.Ok? ==> var a := r.value.allCandidates;
      && |a| >= 1
      && r.value.optimal == OptimalOf(a[0])
      && r.value.alternatives == a[1..Min(4, |a|)]
      && |r.value.alternatives| <= 3
      && r.value.mode == Mode(req)
  {
    var cs :- Candidates(ps, req, sine);
    if cs == [] then Err(NoSuitablePsp)
    else
      var sorted := SortBy(cs, Weight);
      Ok(RoutingAnalysis(OptimalOf(sorted[0]), sorted[1..Min(4, |sorted|)], sorted, Mode(req)))
  }

  /** The optimal choice has the least weighted score of all candidates, every candidate is there
      once, and the list is in ascending order of weighted score. */
  lemma RouteOptimalIsCheapest(ps: seq<Provider>, req: RoutingRequest, sine: real -> real)
    requires Route(ps, req, sine).Ok?
    ensures var r := Route(ps, req, sine).value; var cs := Candidates(ps, req, sine).value;
      && multiset(r.allCandidates) == multiset(cs)
      && SortedBy(r.allCandidates, Weight)
      && forall i :: 0 <= i < |cs| ==> r.optimal.expectedScore <= cs[i].weightedScore
  {
    var cs := Candidates(ps, req, sine).value;
    SortBySortedPermutation(cs, Weight);
    SortByHeadIsMinimal(cs, Weight);
  }

  /** With only adapters active, routing fails exactly when no active provider supports the target currency. */
  lemma RouteFailsOnlyWithoutSupport(ps: seq<Provider>, req: RoutingRequest, sine: real -> real)
    requires forall i :: 0 <= i < |ps| ==> ps[i].kind != Generic
    ensures Route(ps, req, sine).Err? <==> SupportingNames(ps, req.toCurrency) == []
    ensures Route(ps, req, sine).Err? ==> Route(ps, req, sine).error == NoSuitablePsp
  {
    AdaptersAlwaysRate(ps, req, sine);
    CandidatesAreSupporting(ps, req, sine);
  }

  /** The only error of the scoring loop is the base class refusing to quote a rate. */
  lemma {:induction false} CandidatesFailOnlyOnBaseRate(ps: seq<Provider>, req: RoutingRequest, sine: real -> real)
    ensures Candidates(ps, req, sine).Err? ==> Candidates(ps, req, sine).error == "getExchangeRate() must be implemented"
  {
    if ps != [] {
      var init := ps[..|ps| - 1];
      CandidatesFailOnlyOnBaseRate(init, req, sine);
    }
  }

  /** One more provider either leaves the candidates as they are, adds its candidate, or fails. */
  lemma CandidatesExtend(ps: seq<Provider>, i: nat, req: RoutingRequest, sine: real -> real)
    requires i < |ps| && Candidates(ps[..i], req, sine).Ok?
    ensures var p := ps[i]; var next := Candidates(ps[..i + 1], req, sine);
      var rate := p.GetExchangeRate(Show(req.fromCurrency), Show(req.toCurrency));
      && (!Supports(p, req.toCurrency) ==> next == Candidates(ps[..i], req, sine))
      && (Supports(p, req.toCurrency) && rate.Err? ==> next == Err(rate.error))
      && (Supports(p, req.toCurrency) && rate.Ok? ==>
            next == Ok(Candidates(ps[..i], req, sine).value + [CandidateFor(p, req, rate.value, sine)]))
  {
    assert ps[..i + 1][..i] == ps[..i];
  }

  /** The scoring loop of `selectOptimalPSP` over the active providers `ps`: providers without the target
      currency are skipped, the first exchange-rate failure is returned. */
  method ScoreProviders(ps: seq<Provider>, req: RoutingRequest, sine: real -> real) returns (r: Result<seq<Candidate>>)
    ensures r == Candidates(ps, req, sine)
  {
    var candidates: seq<Candidate> := [];
    var i := 0;
    while i < |ps|
      invariant 0 <= i <= |ps|
      invariant Candidates(ps[..i], req, sine) == Ok(candidates)
    {
      var psp := ps[i];
      CandidatesExtend(ps, i, req, sine);
      if !Supports(psp, req.toCurrency) {
        i := i + 1;
        continue;
      }
      var exchangeRate := psp.GetExchangeRate(Show(req.fromCurrency), Show(req.toCurrency));
      if exchangeRate.Err? {
        CandidatesFailurePersists(ps, i + 1, req, sine);
        return Err(exchangeRate.error);
      }
      candidates := candidates + [CandidateFor(psp, req, exchangeRate.value, sine)];
      i := i + 1;
    }
    assert ps[..i] == ps;
    return Ok(candidates);
  }

  /** `selectOptimalPSP`: the scoring loop over the store's active providers, then the selection. */
  method SelectOptimalPSP(store: PSPPluginStore, req: RoutingRequest, sine: real -> real) returns (r: Result<RoutingAnalysis>)
    requires store.Valid()
    ensures r == Route(store.ActiveProviders(), req, sine)
  {
    var activePSPs := store.ActiveProviders();
    var scored := ScoreProviders(activePSPs, req, sine);
    if scored.Err? {
      return Err(scored.error);
    }
    var candidates := scored.value;
    if |candidates| == 0 {
      return Err(NoSuitablePsp);
    }
    var sorted := SortBy(candidates, Weight);
    return Ok(RoutingAnalysis(OptimalOf(sorted[0]), sorted[1..Min(4, |sorted|)], sorted, Mode(req)));
  }

  /** `getNextAlternative`: records the failed provider and the reason; the clock is an input. */
  function GetNextAlternative(currentOptimal: string, failureReason: string, now: int): (s: Switch)
    ensures s.originalPSP == currentOptimal && s.switchReason == failureReason && s.switchedAt == now
  {
    Switch(failureReason, now, currentOptimal)
  }
}
