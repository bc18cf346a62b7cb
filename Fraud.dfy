/** The rule-based fraud risk engine (backend/src/fraud/FraudDetectionEngine.js).
    Seven independently bounded rules are summed and capped at 100; the score selects
    a level, an action and a recommendation. The engine keeps four per-user histories
    in memory; two of them are written by the rules themselves while a risk is assessed. */
module Fraud {
  import opened Wrappers

  type UserId = string

  /** The human-readable reasons the rules report (the emoji texts of the source, by kind). */
  datatype Violation =
    | AccountSuspended(recentCount: nat)
    | ThreeRecentWarning
    | RapidTransactions
    | MultipleInShortTime
    | SuspiciousAmount(amount: real, avgLast3: real)
    | AmountFiveTimesUsual(avgAmount: real, amount: real)
    | AmountThreeTimesUsual
    | ImpossibleTravel(distanceKm: nat, elapsedMs: int)
    | LargeGeographicChange(from: Option<string>, to: Option<string>)
    | UnknownDeviceAndIp
    | NewDeviceFromKnownIp
    | KnownDeviceFromNewLocation
    | HighRiskCountryPair(sender: Option<string>, recipient: Option<string>)
    | MultipleCardAttempts
    | UnusualTime(hour: int)

  /** What one rule returns: its score, the violation it reports (if any) and whether it forces a logout. */
  datatype RuleResult = RuleResult(score: nat, violation: Option<Violation>, autoLogout: bool)

  const Clean := RuleResult(0, None, false)

  datatype RiskLevel = Low | Medium | High
  datatype Action = Approve | Verify | Decline

  datatype Breakdown = Breakdown(
    rapidTransactions: nat,
    unusualAmount: nat,
    geolocation: nat,
    deviceMismatch: nat,
    highRiskCountry: nat,
    cardVelocity: nat,
    abnormalTime: nat)

  datatype RiskAssessment = RiskAssessment(
    riskScore: nat,
    riskLevel: RiskLevel,
    action: Action,
    violations: seq<Violation>,
    autoLogout: bool,
    breakdown: Breakdown,
    recommendation: string)

  /** The fields of a transaction that the engine reads. `localHour` is the hour of `timestamp`
      in the server's time zone (the source derives it with `new Date(timestamp).getHours()`). */
  datatype TransactionData = TransactionData(
    amount: real,
    currency: Option<string>,
    userId: UserId,
    cardNumber: Option<string>,
    ipAddress: Option<string>,
    deviceId: Option<string>,
    timestamp: int,
    localHour: int,
    recipientCountry: Option<string>,
    senderCountry: Option<string>)

  datatype LocationEntry = LocationEntry(country: Option<string>, timestamp: int, ip: Option<string>)
  datatype DeviceEntry = DeviceEntry(deviceId: Option<string>, ipAddress: Option<string>)

  const VelocityWindowMs: int := 300000
  const MaxHistory: nat := 100
  const MaxLocations: nat := 50
  const LowThreshold: nat := 30
  const MediumThreshold: nat := 70

  function Lookup<V>(m: map<UserId, V>, u: UserId): (r: Option<V>)
    ensures r.Some? <==> u in m
    ensures r.Some? ==> r.value == m[u]
  {
    if u in m then Some(m[u]) else None
  }

  /** Appends to a bounded window: once the window exceeds `cap`, its oldest entry is dropped. */
  function Window<T>(s: seq<T>, cap: nat): (r: seq<T>)
    requires cap > 0
    ensures |s| <= cap + 1 ==> |r| <= cap
    ensures |s| > 0 ==> |r| > 0 && r[|r| - 1] == s[|s| - 1]
    ensures |s| <= cap ==> r == s
  {
    if |s| > cap then s[1..] else s
  }

  // ---------------------------------------------------------------------------
  // Rule 1: rapid transactions

  /** How many stored timestamps lie within five minutes before `now` (or after it). */
  function RecentCount(history: seq<int>, now: int): (n: nat)
    ensures n <= |history|
  {
    if history == [] then 0
    else RecentCount(history[..|history| - 1], now) + (if now - history[|history| - 1] < VelocityWindowMs then 1 else 0)
  }

  /** Recording one more timestamp adds exactly one to the recent count when it is itself recent. */
  lemma RecentCountAppend(history: seq<int>, t: int, now: int)
    ensures RecentCount(history + [t], now) == RecentCount(history, now) + (if now - t < VelocityWindowMs then 1 else 0)
  {
    assert (history + [t])[..|history|] == history;
  }

  lemma {:induction false} RecentCountAllRecent(history: seq<int>, now: int)
    requires forall i :: 0 <= i < |history| ==> now - history[i] < VelocityWindowMs
    ensures RecentCount(history, now) == |history|
    decreases |history|
  {
    if history != [] {
      RecentCountAllRecent(history[..|history| - 1], now);
    }
  }

  /** The velocity table: 0, 1, 2, 3 recent transactions score 0, 10, 20, 35; more score 100 and log out. */
  function VelocityResult(recentCount: nat): (r: RuleResult)
    ensures r.autoLogout <==> recentCount > 3
    ensures r.violation.Some? <==> recentCount > 0
    ensures recentCount <= 3 ==> r.score == [0, 10, 20, 35][recentCount]
    ensures recentCount > 3 ==> r.score == 100 && r.violation == Some(AccountSuspended(recentCount))
  {
    if recentCount > 3 then RuleResult(100, Some(AccountSuspended(recentCount)), true)
    else if recentCount == 3 then RuleResult(35, Some(ThreeRecentWarning), false)
    else if recentCount == 2 then RuleResult(20, Some(RapidTransactions), false)
    else if recentCount == 1 then RuleResult(10, Some(MultipleInShortTime), false)
    else Clean
  }

  /** More recent transactions never lower the velocity score. */
  lemma VelocityMonotone(c1: nat, c2: nat)
    requires c1 <= c2
    ensures VelocityResult(c1).score <= VelocityResult(c2).score
  {
  }

  /** Rule 1 on the user's stored timestamps: a user without an entry scores 0. */
  function VelocityRule(history: Option<seq<int>>, now: int): (r: RuleResult)
    ensures history.None? ==> r == Clean
    ensures history.Some? ==> r == VelocityResult(RecentCount(history.value, now))
  {
    match history
    case None => Clean
    case Some(h) => VelocityResult(RecentCount(h, now))
  }

  // ---------------------------------------------------------------------------
  // Rule 2: unusual amount

  function Sum(s: seq<real>): real {
    if s == [] then 0.0 else Sum(s[..|s| - 1]) + s[|s| - 1]
  }

  function Mean(s: seq<real>): real
    requires s != []
  {
    Sum(s) / (|s| as real)
  }

  function MaxOf(s: seq<real>): (m: real)
    requires s != []
    ensures forall i :: 0 <= i < |s| ==> s[i] <= m
    ensures exists i :: 0 <= i < |s| && s[i] == m
  {
    if |s| == 1 then s[0]
    else
      var m := MaxOf(s[..|s| - 1]);
      assert forall i :: 0 <= i < |s| - 1 ==> s[..|s| - 1][i] == s[i];
      if s[|s| - 1] > m then s[|s| - 1] else m
  }

  /** JavaScript's `amount / avg > k` for a positive constant `k`: dividing a positive amount by zero
      gives Infinity (which exceeds k), zero by zero gives NaN and a negative amount -Infinity (neither does). */
  predicate RatioExceeds(amount: real, avg: real, k: real)
    requires k > 0.0
  {
    if avg == 0.0 then amount > 0.0 else amount / avg > k
  }

  lemma RatioExceedsPositive(amount: real, avg: real, k: real)
    requires k > 0.0 && avg > 0.0
    ensures RatioExceeds(amount, avg, k) <==> amount > k * avg
  {
    if amount / avg > k {
      assert amount == (amount / avg) * avg;
    }
  }

  /** Rule 2 on the stored amounts alone (the caller's own history argument never reaches it). */
  function AmountResult(stored: seq<real>, amount: real): (r: RuleResult)
    ensures stored == [] ==> r == Clean
    ensures r.autoLogout <==> |stored| >= 3 && amount > Mean(stored[|stored| - 3..]) * 3.0
    ensures r.autoLogout ==> r.score == 100
    ensures !r.autoLogout ==> r.score in {0, 8, 15, 25}
    ensures stored != [] && !r.autoLogout ==>
      && (r.score == 25 <==> RatioExceeds(amount, Mean(stored), 5.0))
      && (r.score == 15 <==> !RatioExceeds(amount, Mean(stored), 5.0) && RatioExceeds(amount, Mean(stored), 3.0))
      && (r.score == 8 <==> !RatioExceeds(amount, Mean(stored), 5.0) && !RatioExceeds(amount, Mean(stored), 3.0)
                            && amount > MaxOf(stored) * 1.5)
    ensures r.score == 8 ==> r.violation.None?
    ensures r.violation.Some? <==> r.score >= 15
  {
    if stored == [] then Clean
    else if |stored| >= 3 && amount > Mean(stored[|stored| - 3..]) * 3.0 then
      RuleResult(100, Some(SuspiciousAmount(amount, Mean(stored[|stored| - 3..]))), true)
    else if RatioExceeds(amount, Mean(stored), 5.0) then
      RuleResult(25, Some(AmountFiveTimesUsual(Mean(stored), amount)), false)
    else if RatioExceeds(amount, Mean(stored), 3.0) then
      RuleResult(15, Some(AmountThreeTimesUsual), false)
    else if amount > MaxOf(stored) * 1.5 then
      RuleResult(8, None, false)
    else Clean
  }

  /** For a history of positive amounts, rule 2 below the auto-logout spike scores by multiples of
      the mean: 25 above five times it, 15 above three times it, otherwise 8 above 1.5 times the
      largest amount, else 0. */
  lemma {:induction false} AmountScoresByMean(stored: seq<real>, amount: real)
    requires stored != [] && forall i :: 0 <= i < |stored| ==> stored[i] > 0.0
    ensures Mean(stored) > 0.0
    ensures var r := AmountResult(stored, amount);
      !r.autoLogout ==>
      && (r.score == 25 <==> amount > 5.0 * Mean(stored))
      && (r.score == 15 <==> 3.0 * Mean(stored) < amount <= 5.0 * Mean(stored))
      && (r.score == 8 <==> amount <= 3.0 * Mean(stored) && amount > MaxOf(stored) * 1.5)
      && (r.score == 0 <==> amount <= 3.0 * Mean(stored) && amount <= MaxOf(stored) * 1.5)
  {
    SumPositive(stored);
    RatioExceedsPositive(amount, Mean(stored), 5.0);
    RatioExceedsPositive(amount, Mean(stored), 3.0);
  }

  lemma {:induction false} SumPositive(s: seq<real>)
    requires s != [] && forall i :: 0 <= i < |s| ==> s[i] > 0.0
    ensures Sum(s) > 0.0
  {
    if |s| > 1 {
      SumPositive(s[..|s| - 1]);
    }
  }

  // ---------------------------------------------------------------------------
  // Rule 3: geolocation anomaly

  /** The mock distance table: 0 for the same country, the directional pairs TR-US, TR-EU, US-EU, else 5000 km. */
  function Distance(country1: Option<string>, country2: Option<string>): (km: nat)
    ensures km == 0 <==> country1 == country2
    ensures km in {0, 2000, 5000, 6500, 9500}
  {
    if country1 == country2 then 0
    else
      var key := Show(country1) + "-" + Show(country2);
      if key == "TR-US" then 9500
      else if key == "TR-EU" then 2000
      else if key == "US-EU" then 6500
      else 5000
  }

  /** Farther than 1000 km, and farther than 900 km/h could cover in the elapsed milliseconds. */
  predicate TooFarToTravel(last: LocationEntry, country: Option<string>, timestamp: int) {
    Distance(last.country, country) > 1000 &&
    (Distance(last.country, country) as real) * 4000.0 > (timestamp - last.timestamp) as real
  }

  /** The scoring step of rule 3, given the user's last known location. */
  function GeoResult(last: LocationEntry, country: Option<string>, timestamp: int): (r: RuleResult)
    ensures r.score in {0, 15, 30} && !r.autoLogout
    ensures r.violation.Some? <==> r.score > 0
    ensures r.score == 30 <==> TooFarToTravel(last, country, timestamp)
    ensures r.score == 15 <==>
      !TooFarToTravel(last, country, timestamp) && last.country != country && Distance(last.country, country) > 5000
    ensures r.score == 15 ==> Distance(last.country, country) in {6500, 9500}
    ensures last.country == country ==> r == Clean
  {
    var timeDiff := timestamp - last.timestamp;
    var distanceKm := Distance(last.country, country);
    var maxPossibleDistance := (timeDiff as real / 3600000.0) * 900.0;
    if distanceKm as real > maxPossibleDistance && distanceKm > 1000 then
      RuleResult(30, Some(ImpossibleTravel(distanceKm, timeDiff)), false)
    else if last.country != country && distanceKm > 5000 then
      RuleResult(15, Some(LargeGeographicChange(last.country, country)), false)
    else Clean
  }

  /** Rule 3 on the user's stored locations: the first sighting (or an empty list) scores 0. */
  function GeoRule(history: Option<seq<LocationEntry>>, current: LocationEntry): (r: RuleResult)
    ensures history.None? || history.value == [] ==> r == Clean
    ensures history.Some? && history.value != [] ==>
      r == GeoResult(history.value[|history.value| - 1], current.country, current.timestamp)
  {
    match history
    case None => Clean
    case Some(h) => if h == [] then Clean else GeoResult(h[|h| - 1], current.country, current.timestamp)
  }

  /** The user's location list after rule 3 ran: every call appends, and the list keeps at most 50 entries. */
  function GeoHistoryAfter(history: Option<seq<LocationEntry>>, current: LocationEntry): (h: seq<LocationEntry>)
    ensures |h| > 0 && h[|h| - 1] == current
    ensures history.Some? && |history.value| <= MaxLocations ==> |h| <= MaxLocations
    ensures history.None? ==> h == [current]
    ensures history.Some? && |history.value| < MaxLocations ==> h == history.value + [current]
  {
    match history
    case None => [current]
    case Some(l) => if l == [] then [current] else Window(l + [current], MaxLocations)
  }

  // ---------------------------------------------------------------------------
  // Rule 4: device and IP mismatch

  predicate KnownDevice(history: seq<DeviceEntry>, deviceId: Option<string>) {
    exists i :: 0 <= i < |history| && history[i].deviceId == deviceId
  }

  predicate KnownIp(history: seq<DeviceEntry>, ip: Option<string>) {
    exists i :: 0 <= i < |history| && history[i].ipAddress == ip
  }

  /** Unknown device and IP score 20; a new device on a known IP 10; a known device on a new IP 8. */
  function DeviceResult(history: seq<DeviceEntry>, deviceId: Option<string>, ip: Option<string>): (r: RuleResult)
    ensures r.score == 20 <==> !KnownDevice(history, deviceId) && !KnownIp(history, ip)
    ensures r.score == 10 <==> !KnownDevice(history, deviceId) && KnownIp(history, ip)
    ensures r.score == 8 <==> KnownDevice(history, deviceId) && !KnownIp(history, ip)
    ensures r.score == 0 <==> KnownDevice(history, deviceId) && KnownIp(history, ip)
    ensures r.violation.Some? <==> r.score > 0
    ensures !r.autoLogout
  {
    var isKnownDevice := KnownDevice(history, deviceId);
    var isKnownIp := KnownIp(history, ip);
    if !isKnownDevice && !isKnownIp then RuleResult(20, Some(UnknownDeviceAndIp), false)
    else if !isKnownDevice && isKnownIp then RuleResult(10, Some(NewDeviceFromKnownIp), false)
    else if isKnownDevice && !isKnownIp then RuleResult(8, Some(KnownDeviceFromNewLocation), false)
    else Clean
  }

  /** Rule 4 on the user's stored devices: the first sighting scores 0. */
  function DeviceRule(history: Option<seq<DeviceEntry>>, deviceId: Option<string>, ip: Option<string>): (r: RuleResult)
    ensures history.None? ==> r == Clean
    ensures history.Some? ==> r == DeviceResult(history.value, deviceId, ip)
  {
    match history
    case None => Clean
    case Some(h) => DeviceResult(h, deviceId, ip)
  }

  // ---------------------------------------------------------------------------
  // Rules 5 to 7

  const HighRiskPairs: seq<(string, string)> := [("KP", "US"), ("IR", "US"), ("SY", "US")]

  predicate MatchesPair(pair: (string, string), sender: Option<string>, recipient: Option<string>) {
    (sender == Some(pair.0) && recipient == Some(pair.1)) || (sender == Some(pair.1) && recipient == Some(pair.0))
  }

  /** A sanctioned-style pair in either direction scores 15. */
  function HighRiskCountries(sender: Option<string>, recipient: Option<string>): (r: RuleResult)
    ensures r.score == 15 <==>
      exists c :: c in {"KP", "IR", "SY"} &&
        ((sender == Some(c) && recipient == Some("US")) || (sender == Some("US") && recipient == Some(c)))
    ensures r.score in {0, 15} && !r.autoLogout
    ensures r.violation.Some? <==> r.score == 15
  {
    var isHighRisk := exists i :: 0 <= i < |HighRiskPairs| && MatchesPair(HighRiskPairs[i], sender, recipient);
    assert isHighRisk <==> (MatchesPair(HighRiskPairs[0], sender, recipient) ||
      MatchesPair(HighRiskPairs[1], sender, recipient) || MatchesPair(HighRiskPairs[2], sender, recipient));
    if isHighRisk then RuleResult(15, Some(HighRiskCountryPair(sender, recipient)), false) else Clean
  }

  lemma HighRiskSymmetric(a: Option<string>, b: Option<string>)
    ensures HighRiskCountries(a, b).score == HighRiskCountries(b, a).score
  {
  }

  /** Rule 6: a card used more than three times recently scores 20; without a card the rule is skipped. */
  function CardVelocity(cardNumber: Option<string>, recentCardUses: nat): (r: RuleResult)
    ensures r.score == 20 <==> Truthy(cardNumber) && recentCardUses > 3
    ensures r.score in {0, 20} && !r.autoLogout
  {
    if !Truthy(cardNumber) then Clean
    else if recentCardUses > 3 then RuleResult(20, Some(MultipleCardAttempts), false)
    else Clean
  }

  /** The source's placeholder for the card's recent use count: 1 or 0 by a random draw,
      which here is the parameter `draw`. It never reaches the threshold of rule 6. */
  function RecentCardUses(draw: bool): (n: nat)
    ensures n <= 1
  {
    if draw then 1 else 0
  }

  /** Whatever the draw, rule 6 never scores. */
  lemma CardVelocityNeverScores(cardNumber: Option<string>, draw: bool)
    ensures CardVelocity(cardNumber, RecentCardUses(draw)) == Clean
  {
  }

  /** Rule 7: a local hour from 2 to 5 inclusive scores 10. */
  function AbnormalTime(hour: int): (r: RuleResult)
    ensures r.score == 10 <==> 2 <= hour <= 5
    ensures r.score in {0, 10} && !r.autoLogout
    ensures r.violation.Some? <==> r.score == 10
  {
    if 2 <= hour <= 5 then RuleResult(10, Some(UnusualTime(hour)), false) else Clean
  }

  // ---------------------------------------------------------------------------
  // Decision

  function DetermineAction(score: int): (a: Action)
    ensures a == Approve <==> score <= LowThreshold
    ensures a == Verify <==> LowThreshold < score <= MediumThreshold
    ensures a == Decline <==> score > MediumThreshold
  {
    if score <= 30 then Approve else if score <= 70 then Verify else Decline
  }

  function GetRiskLevel(score: int): (l: RiskLevel)
    ensures l == Low <==> score <= LowThreshold
    ensures l == Medium <==> LowThreshold < score <= MediumThreshold
    ensures l == High <==> score > MediumThreshold
  {
    if score <= 30 then Low else if score <= 70 then Medium else High
  }

  /** Level and action always agree: LOW with APPROVE, MEDIUM with VERIFY, HIGH with DECLINE. */
  lemma LevelMatchesAction(score: int)
    ensures GetRiskLevel(score) == Low <==> DetermineAction(score) == Approve
    ensures GetRiskLevel(score) == Medium <==> DetermineAction(score) == Verify
    ensures GetRiskLevel(score) == High <==> DetermineAction(score) == Decline
  {
  }

  function GetRecommendation(action: Action): string {
    match action
    case Approve => "✅ Transaction looks legitimate. Proceeding..."
    case Verify => "🔐 Please verify your identity (2FA/OTP)"
    case Decline => "❌ Transaction blocked for security reasons. Please contact support."
  }

  function ViolationOf(r: RuleResult): seq<Violation> {
    if r.violation.Some? then [r.violation.value] else []
  }

  /** Sums the seven rule results in their fixed order, caps the total at 100 and derives the decision. */
  function Combine(rapid: RuleResult, amount: RuleResult, geo: RuleResult, device: RuleResult,
                   country: RuleResult, card: RuleResult, time: RuleResult): (a: RiskAssessment)
    ensures a.riskScore <= 100
    ensures a.riskScore == if rapid.score + amount.score + geo.score + device.score + country.score + card.score + time.score > 100
      then 100 else rapid.score + amount.score + geo.score + device.score + country.score + card.score + time.score
    ensures a.breakdown == Breakdown(rapid.score, amount.score, geo.score, device.score, country.score, card.score, time.score)
    ensures a.violations == ViolationOf(rapid) + ViolationOf(amount) + ViolationOf(geo) + ViolationOf(device)
      + ViolationOf(country) + ViolationOf(card) + ViolationOf(time)
    ensures a.autoLogout <==> rapid.autoLogout || amount.autoLogout
    ensures a.action == DetermineAction(a.riskScore) && a.riskLevel == GetRiskLevel(a.riskScore)
    ensures a.recommendation == GetRecommendation(a.action)
  {
    var total := rapid.score + amount.score + geo.score + device.score + country.score + card.score + time.score;
    var score := if total > 100 then 100 else total;
    var action := DetermineAction(score);
    RiskAssessment(
      score,
      GetRiskLevel(score),
      action,
      ViolationOf(rapid) + ViolationOf(amount) + ViolationOf(geo) + ViolationOf(device)
        + ViolationOf(country) + ViolationOf(card) + ViolationOf(time),
      rapid.autoLogout || amount.autoLogout,
      Breakdown(rapid.score, amount.score, geo.score, device.score, country.score, card.score, time.score),
      GetRecommendation(action))
  }

  function CurrentLocation(data: TransactionData): LocationEntry {
    LocationEntry(data.senderCountry, data.timestamp, data.ipAddress)
  }

  /** The assessment `assessRisk` returns, as a function of the four histories before the call. */
  function Assessment(timestamps: map<UserId, seq<int>>, amounts: map<UserId, seq<real>>,
                      locations: map<UserId, seq<LocationEntry>>, devices: map<UserId, seq<DeviceEntry>>,
                      data: TransactionData, cardDraw: bool): (a: RiskAssessment)
  {
    var u := data.userId;
    Combine(
      VelocityRule(Lookup(timestamps, u), data.timestamp),
      AmountResult(Lookup(amounts, u).GetOr([]), data.amount),
      GeoRule(Lookup(locations, u), CurrentLocation(data)),
      DeviceRule(Lookup(devices, u), data.deviceId, data.ipAddress),
      HighRiskCountries(data.senderCountry, data.recipientCountry),
      CardVelocity(data.cardNumber, RecentCardUses(cardDraw)),
      AbnormalTime(data.localHour))
  }

  /** The engine's four per-user histories. */
  datatype Histories = Histories(timestamps: map<UserId, seq<int>>, amounts: map<UserId, seq<real>>,
                                 locations: map<UserId, seq<LocationEntry>>, devices: map<UserId, seq<DeviceEntry>>)

  /** The histories `assessRisk` leaves behind: a new user gets an empty timestamp window and keeps
      its first (device, IP) pair, the current location is appended to the user's capped list, and no
      amount is stored. */
  function Assessed(h: Histories, data: TransactionData): Histories {
    var u := data.userId;
    Histories(
      if u in h.timestamps then h.timestamps else h.timestamps[u := []],
      h.amounts,
      h.locations[u := GeoHistoryAfter(Lookup(h.locations, u), CurrentLocation(data))],
      if u in h.devices then h.devices else h.devices[u := [DeviceEntry(data.deviceId, data.ipAddress)]])
  }

  /** The histories after `recordTransaction`: the time and the amount appended to the user's windows. */
  function Recorded(h: Histories, u: UserId, amount: real, timestamp: int): Histories {
    h.(timestamps := h.timestamps[u := Window(Lookup(h.timestamps, u).GetOr([]) + [timestamp], MaxHistory)],
       amounts := h.amounts[u := Window(Lookup(h.amounts, u).GetOr([]) + [amount], MaxHistory)])
  }

  /** After an assessment the user's next geolocation check compares against this call's location. */
  lemma AssessedFeedsNextGeo(h: Histories, data: TransactionData, next: LocationEntry)
    ensures GeoRule(Lookup(Assessed(h, data).locations, data.userId), next)
            == GeoResult(CurrentLocation(data), next.country, next.timestamp)
  {
    var l := Assessed(h, data).locations[data.userId];
    assert l[|l| - 1] == CurrentLocation(data);
  }

  /** After an assessment the user's next device check compares against the first pair ever seen:
      the stored one, or this call's for a new user. */
  lemma AssessedFeedsNextDevice(h: Histories, data: TransactionData, deviceId: Option<string>, ip: Option<string>)
    ensures DeviceRule(Lookup(Assessed(h, data).devices, data.userId), deviceId, ip)
            == DeviceResult(if data.userId in h.devices then h.devices[data.userId]
                            else [DeviceEntry(data.deviceId, data.ipAddress)], deviceId, ip)
  {
  }

  /** An assessment touches no other user's histories. */
  lemma AssessedKeepsOthers(h: Histories, data: TransactionData, v: UserId)
    requires v != data.userId
    ensures Lookup(Assessed(h, data).timestamps, v) == Lookup(h.timestamps, v)
    ensures Lookup(Assessed(h, data).locations, v) == Lookup(h.locations, v)
    ensures Lookup(Assessed(h, data).devices, v) == Lookup(h.devices, v)
    ensures Assessed(h, data).amounts == h.amounts
  {
  }

  /** More than three recent transactions force a score of 100, a DECLINE and a logout, whatever the other rules say. */
  lemma VelocityForcesDecline(timestamps: map<UserId, seq<int>>, amounts: map<UserId, seq<real>>,
                              locations: map<UserId, seq<LocationEntry>>, devices: map<UserId, seq<DeviceEntry>>,
                              data: TransactionData, cardDraw: bool)
    requires data.userId in timestamps && RecentCount(timestamps[data.userId], data.timestamp) > 3
    ensures var a := Assessment(timestamps, amounts, locations, devices, data, cardDraw);
      a.riskScore == 100 && a.action == Decline && a.riskLevel == High && a.autoLogout
  {
  }

  /** A sudden amount above three times the mean of the last three forces a DECLINE and a logout. */
  lemma AmountSpikeForcesDecline(timestamps: map<UserId, seq<int>>, amounts: map<UserId, seq<real>>,
                                 locations: map<UserId, seq<LocationEntry>>, devices: map<UserId, seq<DeviceEntry>>,
                                 data: TransactionData, cardDraw: bool)
    requires data.userId in amounts && |amounts[data.userId]| >= 3
    requires var s := amounts[data.userId]; data.amount > Mean(s[|s| - 3..]) * 3.0
    ensures var a := Assessment(timestamps, amounts, locations, devices, data, cardDraw);
      a.riskScore == 100 && a.action == Decline && a.autoLogout
  {
  }

  /** A user the engine has never seen, outside the night hours and outside the high-risk pairs, scores 0. */
  lemma NewUserScoresZero(timestamps: map<UserId, seq<int>>, amounts: map<UserId, seq<real>>,
                          locations: map<UserId, seq<LocationEntry>>, devices: map<UserId, seq<DeviceEntry>>,
                          data: TransactionData, cardDraw: bool)
    requires data.userId !in timestamps && data.userId !in amounts
    requires data.userId !in locations && data.userId !in devices
    requires !(2 <= data.localHour <= 5)
    requires HighRiskCountries(data.senderCountry, data.recipientCountry).score == 0
    ensures var a := Assessment(timestamps, amounts, locations, devices, data, cardDraw);
      a.riskScore == 0 && a.violations == [] && a.action == Approve && !a.autoLogout
  {
  }

  // ---------------------------------------------------------------------------
  // The engine

  class FraudDetectionEngine {
    var timestamps: map<UserId, seq<int>>
    var amounts: map<UserId, seq<real>>
    var locations: map<UserId, seq<LocationEntry>>
    var devices: map<UserId, seq<DeviceEntry>>

    /** The bounds the engine keeps: windows of at most 100, a non-empty location list of at most 50,
        and exactly one stored (device, IP) pair per user, the first one seen. */
    /** The four histories together. */
    function State(): Histories
      reads this
    {
      Histories(timestamps, amounts, locations, devices)
    }

    ghost predicate Valid()
      reads this
    {
      && (forall u :: u in timestamps ==> |timestamps[u]| <= MaxHistory)
      && (forall u :: u in amounts ==> |amounts[u]| <= MaxHistory)
      && (forall u :: u in locations ==> 1 <= |locations[u]| <= MaxLocations)
      && (forall u :: u in devices ==> |devices[u]| == 1)
    }

    constructor ()
      ensures Valid()
      ensures timestamps == map[] && amounts == map[] && locations == map[] && devices == map[]
    {
      timestamps, amounts, locations, devices := map[], map[], map[], map[];
    }

    /** Rule 1 as the source runs it: a user without an entry gets an empty one and scores 0. */
    method CheckRapidTransactions(u: UserId, now: int) returns (r: RuleResult)
      requires Valid()
      modifies this`timestamps
      ensures Valid()
      ensures r == VelocityRule(Lookup(old(timestamps), u), now)
      ensures timestamps == if u in old(timestamps) then old(timestamps) else old(timestamps)[u := []]
    {
      if u !in timestamps {
        timestamps := timestamps[u := []];
        return Clean;
      }
      var recentCount := RecentCount(timestamps[u], now);
      r := VelocityResult(recentCount);
    }

    /** Rule 3 as the source runs it: scores against the last location, then appends the current one. */
    method CheckGeolocationAnomaly(u: UserId, current: LocationEntry) returns (r: RuleResult)
      modifies this`locations
      ensures old(Valid()) ==> Valid()
      ensures r == GeoRule(Lookup(old(locations), u), current)
      ensures locations == old(locations)[u := GeoHistoryAfter(Lookup(old(locations), u), current)]
    {
      if u !in locations {
        locations := locations[u := [current]];
        return Clean;
      }
      var history := locations[u];
      if history == [] {
        locations := locations[u := [current]];
        return Clean;
      }
      var lastEntry := history[|history| - 1];
      r := GeoResult(lastEntry, current.country, current.timestamp);
      locations := locations[u := history + [current]];
      if |locations[u]| > MaxLocations {
        locations := locations[u := locations[u][1..]];
      }
    }

    /** Rule 4 as the source runs it: the (device, IP) pair is stored only on the first sighting. */
    method CheckDeviceMismatch(u: UserId, deviceId: Option<string>, ip: Option<string>) returns (r: RuleResult)
      requires Valid()
      modifies this`devices
      ensures Valid()
      ensures r == DeviceRule(Lookup(old(devices), u), deviceId, ip)
      ensures devices == if u in old(devices) then old(devices) else old(devices)[u := [DeviceEntry(deviceId, ip)]]
    {
      if u !in devices {
        devices := devices[u := [DeviceEntry(deviceId, ip)]];
        return Clean;
      }
      r := DeviceResult(devices[u], deviceId, ip);
    }

    /** `assessRisk`. The second argument of the source is accepted and ignored; the amount rule reads
        only the engine's own stored amounts. The call also writes the timestamp, location and device
        histories, as the rules do in the source. */
    method AssessRisk(data: TransactionData, userHistory: seq<real>, cardDraw: bool) returns (a: RiskAssessment)
      requires Valid()
      modifies this
      ensures Valid()
      ensures a == Assessment(old(timestamps), old(amounts), old(locations), old(devices), data, cardDraw)
      ensures timestamps == if data.userId in old(timestamps) then old(timestamps) else old(timestamps)[data.userId := []]
      ensures amounts == old(amounts)
      ensures locations == old(locations)[data.userId := GeoHistoryAfter(Lookup(old(locations), data.userId), CurrentLocation(data))]
      ensures devices == if data.userId in old(devices) then old(devices)
                         else old(devices)[data.userId := [DeviceEntry(data.deviceId, data.ipAddress)]]
      ensures State() == Assessed(old(State()), data)
    {
      var u := data.userId;
      var storedAmounts := if u in amounts then amounts[u] else [];
      var rapidCheck := CheckRapidTransactions(u, data.timestamp);
      var amountCheck := AmountResult(storedAmounts, data.amount);
      var geoCheck := CheckGeolocationAnomaly(u, CurrentLocation(data));
      var deviceCheck := CheckDeviceMismatch(u, data.deviceId, data.ipAddress);
      assert amounts == old(amounts) && Valid();
      var countryCheck := HighRiskCountries(data.senderCountry, data.recipientCountry);
      var cardCheck := CardVelocity(data.cardNumber, RecentCardUses(cardDraw));
      var timeCheck := AbnormalTime(data.localHour);
      a := Combine(rapidCheck, amountCheck, geoCheck, deviceCheck, countryCheck, cardCheck, timeCheck);
    }

    /** `recordTransaction`: appends the timestamp and the amount to the user's bounded windows.
        The IP address and device are accepted and not stored. */
    method RecordTransaction(u: UserId, amount: real, ip: Option<string>, deviceId: Option<string>, timestamp: int)
      requires Valid()
      modifies this`timestamps, this`amounts
      ensures Valid()
      ensures timestamps == old(timestamps)[u := Window(Lookup(old(timestamps), u).GetOr([]) + [timestamp], MaxHistory)]
      ensures amounts == old(amounts)[u := Window(Lookup(old(amounts), u).GetOr([]) + [amount], MaxHistory)]
      ensures State() == Recorded(old(State()), u, amount, timestamp)
    {
      var times := if u in timestamps then timestamps[u] else [];
      times := times + [timestamp];
      if |times| > MaxHistory {
        times := times[1..];
      }
      timestamps := timestamps[u := times];
      var sums := if u in amounts then amounts[u] else [];
      sums := sums + [amount];
      if |sums| > MaxHistory {
        sums := sums[1..];
      }
      amounts := amounts[u := sums];
    }

    /** `clearUserHistory` (called on logout): the user disappears from all four histories; nobody else changes. */
    method ClearUserHistory(u: UserId)
      requires Valid()
      modifies this
      ensures Valid()
      ensures timestamps == old(timestamps) - {u} && amounts == old(amounts) - {u}
      ensures locations == old(locations) - {u} && devices == old(devices) - {u}
    {
      timestamps := timestamps - {u};
      amounts := amounts - {u};
      locations := locations - {u};
      devices := devices - {u};
    }
  }

  /** After a record within the window's capacity, the next assessment counts one more recent transaction. */
  lemma RecordRaisesRecentCount(history: seq<int>, t: int, now: int)
    requires |history| < MaxHistory
    requires now - t < VelocityWindowMs
    ensures RecentCount(Window(history + [t], MaxHistory), now) == RecentCount(history, now) + 1
  {
    RecentCountAppend(history, t, now);
  }
}
