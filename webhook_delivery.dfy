/** The webhook delivery engine: which subscriptions an event reaches, the
    request sent to each, the bounded retry loop with its backoff schedule,
    the attempt records it writes and the circuit breaker it drives through
    `failureCount` and `enabled`, and the capped index of recent events. */
module WebhookDelivery {
  import opened Base
  import opened JsText

  type Labels = map<string, string>

  /** A label selector: a key and an optional value ("" when absent). */
  datatype Selector = Selector(key: string, value: string)

  datatype Header = Header(name: string, value: string)

  datatype Endpoint = Endpoint(verb: string, url: string, headers: seq<Header>)

  /** The signing block as stored; absent strings are "". */
  datatype Signing = Signing(mode: string, header: string, secret: string)

  /** The delivery policy as stored: each number may be absent (None), a
      number, or a value that `Number(...)` turns into NaN. */
  datatype StoredPolicy = StoredPolicy(
    retries: Option<JsNum>,
    backoff: string,
    timeoutMs: Option<JsNum>,
    disableAfterFailures: Option<JsNum>)

  datatype DeliveryError = HttpStatus(status: int) | Timeout | Transport(message: string)

  /** `lastDelivery`: the outcome of the last attempt of a delivery. */
  datatype DeliverySummary = DeliverySummary(
    ok: bool,
    status: Option<int>,
    latencyMs: nat,
    error: Option<DeliveryError>)

  datatype Subscription = Subscription(
    id: string,
    enabled: bool,
    eventTypeIds: seq<string>,
    labels: seq<Selector>,
    endpoint: Endpoint,
    signing: Signing,
    policy: StoredPolicy,
    lastDelivery: Option<DeliverySummary>,
    failureCount: nat)

  datatype Event = Event(
    id: string,
    eventType: string,
    occurredAt: string,
    receivedAt: string,
    labels: Labels,
    payload: string)

  /** What one HTTP try produced: a response with its status, an abort by the
      timeout, or another transport failure with its message. */
  datatype Outcome =
    | Response(status: int, latencyMs: nat)
    | Aborted(latencyMs: nat)
    | NetworkError(message: string, latencyMs: nat)

  /** One attempt record; `id` and `attempt` form its storage key. */
  datatype AttemptRecord = AttemptRecord(
    id: string,
    attempt: nat,
    subscriptionId: string,
    eventId: string,
    ok: bool,
    status: Option<int>,
    latencyMs: nat,
    error: Option<DeliveryError>)

  datatype Request = Request(verb: string, url: string, headers: map<string, string>, body: string)

  // ---------------------------------------------------------------------
  // Subscription matching
  // ---------------------------------------------------------------------

  /** One selector, as the loop in `labelsMatch` judges it: a blank key is
      ignored, otherwise the key must be present, and a non-blank value must
      equal the event's value. */
  predicate SelectorHolds(sel: Selector, labels: Labels)
  {
    var k := Trim(sel.key);
    var v := Trim(sel.value);
    k == "" || (k in labels && (v == "" || labels[k] == v))
  }

  function LabelsMatch(sels: seq<Selector>, labels: Labels): (r: bool)
    ensures r <==> forall i :: 0 <= i < |sels| ==> SelectorHolds(sels[i], labels)
  {
    if sels == [] then true
    else SelectorHolds(sels[0], labels) && LabelsMatch(sels[1..], labels)
  }

  predicate HttpUrl(url: string)
  {
    StartsWith(url, "https://") || StartsWith(url, "http://")
  }

  /** The filter of the intake handler. */
  predicate Matches(s: Subscription, eventType: string, labels: Labels)
  {
    s.enabled && eventType in s.eventTypeIds && LabelsMatch(s.labels, labels) && HttpUrl(s.endpoint.url)
  }

  /** The subscriptions an event reaches, in catalog order. */
  function Matched(subs: seq<Subscription>, eventType: string, labels: Labels): (r: seq<Subscription>)
    ensures |r| <= |subs|
    ensures forall s :: s in r <==> s in subs && Matches(s, eventType, labels)
  {
    if subs == [] then []
    else
      var rest := Matched(subs[1..], eventType, labels);
      if Matches(subs[0], eventType, labels) then [subs[0]] + rest else rest
  }

  /** Matching distributes over concatenation of catalogs: each part keeps
      its matches, in order and with their multiplicity. */
  lemma {:induction false} MatchedAppend(a: seq<Subscription>, b: seq<Subscription>, eventType: string, labels: Labels)
    ensures Matched(a + b, eventType, labels) == Matched(a, eventType, labels) + Matched(b, eventType, labels)
    decreases |a|
  {
    if a == [] {
      assert a + b == b;
    } else {
      assert (a + b)[1..] == a[1..] + b;
      MatchedAppend(a[1..], b, eventType, labels);
    }
  }

  /** One subscription is matched once exactly when it matches. */
  lemma MatchedSingle(s: Subscription, eventType: string, labels: Labels)
    ensures Matched([s], eventType, labels) == if Matches(s, eventType, labels) then [s] else []
  {
    assert [s][1..] == [];
  }

  /** A subscription appears in the matched list as many times as the
      catalog lists it when it matches, and not at all otherwise; so the
      matched count the handler answers counts repeated entries. */
  lemma {:induction false} MatchedMultiplicity(subs: seq<Subscription>, s: Subscription, eventType: string, labels: Labels)
    ensures multiset(Matched(subs, eventType, labels))[s] ==
      if Matches(s, eventType, labels) then multiset(subs)[s] else 0
    decreases |subs|
  {
    if subs != [] {
      MatchedMultiplicity(subs[1..], s, eventType, labels);
      assert subs == [subs[0]] + subs[1..];
    }
  }

  /** A disabled subscription receives nothing. */
  lemma DisabledNeverMatches(subs: seq<Subscription>, s: Subscription, eventType: string, labels: Labels)
    requires !s.enabled
    ensures s !in Matched(subs, eventType, labels)
  {
  }

  /** A single selector decides the match on its own. */
  lemma SingleSelector(sel: Selector, labels: Labels)
    ensures LabelsMatch([sel], labels) == SelectorHolds(sel, labels)
  {
    assert [sel][1..] == [];
  }

  /** A selector with a key and no value accepts every value of that key;
      with a value it needs that exact value. */
  lemma SelectorSemantics(key: string, value: string, labels: Labels)
    requires Trim(key) == key && key != ""
    requires Trim(value) == value
    ensures LabelsMatch([Selector(key, "")], labels) <==> key in labels
    ensures value != "" ==>
      (LabelsMatch([Selector(key, value)], labels) <==> key in labels && labels[key] == value)
  {
    assert Trim("") == "";
    SingleSelector(Selector(key, ""), labels);
    SingleSelector(Selector(key, value), labels);
  }

  // ---------------------------------------------------------------------
  // Delivery policy
  // ---------------------------------------------------------------------

  datatype Backoff = Fixed | Expo

  datatype Policy = Policy(retries: nat, backoff: Backoff, timeoutMs: nat, disableAfterFailures: nat)

  /** `clamp(Number(policy.retries ?? 3), 0, 20)` exactly as written: a
      stored value that is not a number comes through as NaN. */
  function RetriesAsWritten(p: StoredPolicy): (r: JsNum)
    ensures r.Num? ==> 0 <= r.n <= 20
    ensures p.retries == Some(NaN) ==> r == NaN
  {
    ClampJs(if p.retries.Some? then p.retries.value else Num(3), 0, 20)
  }

  /** How many times the loop `for (attempt = 0; attempt <= retries; ...)`
      can run: a comparison with NaN is false, so NaN means none. */
  function AttemptLimitAsWritten(p: StoredPolicy): (r: nat)
    ensures r <= 21
  {
    match RetriesAsWritten(p)
    case NaN => 0
    case Num(n) => n + 1
  }

  /** A stored policy number with the fallback applied when it is absent or
      not a number, clamped to [lo, hi]. */
  function PolicyNumber(x: Option<JsNum>, default: int, lo: nat, hi: nat): (r: nat)
    requires lo <= hi
    ensures lo <= r <= hi
    ensures x.Some? && x.value.Num? ==> r == Clamp(x.value.n, lo, hi)
    ensures (x.None? || x == Some(NaN)) ==> r == Clamp(default, lo, hi)
  {
    match x
    case Some(Num(n)) => Clamp(n, lo, hi)
    case _ => Clamp(default, lo, hi)
  }

  /** The effective policy: retries in [0, 20] (default 3), backoff "fixed"
      or exponential, timeout in [1000, 60000] (default 5000), disable
      threshold in [0, 1000] (default 10). */
  function EffectivePolicy(p: StoredPolicy): (r: Policy)
    ensures r.retries <= 20
    ensures 1000 <= r.timeoutMs <= 60000
    ensures r.disableAfterFailures <= 1000
    ensures r.backoff == Fixed <==> p.backoff == "fixed"
    ensures p.retries.None? ==> r.retries == 3
    ensures p.disableAfterFailures.None? ==> r.disableAfterFailures == 10
  {
    Policy(
      PolicyNumber(p.retries, 3, 0, 20),
      if p.backoff == "fixed" then Fixed else Expo,
      PolicyNumber(p.timeoutMs, 5000, 1000, 60000),
      PolicyNumber(p.disableAfterFailures, 10, 0, 1000))
  }

  /** The as-written retry bound and the effective one agree on every
      numeric or absent value: they differ only on NaN. */
  lemma {:induction false} RetriesAgreeOnNumbers(p: StoredPolicy)
    requires p.retries != Some(NaN)
    ensures AttemptLimitAsWritten(p) == EffectivePolicy(p).retries + 1
  {
  }

  /** With a non-numeric `retries` the loop as written makes no attempt at
      all: no attempt record, no `failureCount` change, no `lastDelivery`. */
  lemma NaNRetriesSkipDelivery()
    ensures AttemptLimitAsWritten(StoredPolicy(Some(NaN), "expo", None, None)) == 0
    ensures EffectivePolicy(StoredPolicy(Some(NaN), "expo", None, None)).retries + 1 == 4
  {
  }

  /** `clamp(Number(policy.disableAfterFailures ?? 10), 0, 1000)` exactly as
      written: a stored value that is not a number comes through as NaN. */
  function ThresholdAsWritten(p: StoredPolicy): (r: JsNum)
    ensures r.Num? ==> 0 <= r.n <= 1000
    ensures p.disableAfterFailures == Some(NaN) ==> r == NaN
    ensures p.disableAfterFailures.None? ==> r == Num(10)
  {
    ClampJs(if p.disableAfterFailures.Some? then p.disableAfterFailures.value else Num(10), 0, 1000)
  }

  /** The test `disableAfterFailures > 0 && failureCount >= disableAfterFailures`
      as written: every comparison with NaN is false. */
  predicate DisablesAsWritten(t: JsNum, failures: int)
  {
    t.Num? && t.n > 0 && failures >= t.n
  }

  /** The as-written disable test and the one on the effective policy agree
      on every numeric or absent threshold. */
  lemma {:induction false} ThresholdAgreesOnNumbers(p: StoredPolicy, failures: int)
    requires p.disableAfterFailures != Some(NaN)
    ensures DisablesAsWritten(ThresholdAsWritten(p), failures) <==>
      (EffectivePolicy(p).disableAfterFailures > 0 && failures >= EffectivePolicy(p).disableAfterFailures)
  {
  }

  /** With a non-numeric `disableAfterFailures` the subscription as written is
      never disabled, however many deliveries fail; with the default of 10
      the tenth failure in a row disables it. */
  lemma NaNThresholdNeverDisables(sub: Subscription, last: Outcome)
    requires sub.policy.disableAfterFailures == Some(NaN)
    ensures forall failures :: !DisablesAsWritten(ThresholdAsWritten(sub.policy), failures)
    ensures EffectivePolicy(sub.policy).disableAfterFailures == 10
    ensures !Succeeded(last) && sub.failureCount == 9 ==>
      !HealthAfter(sub, EffectivePolicy(sub.policy), last).enabled
  {
  }

  /** `clamp(Number(policy.timeoutMs ?? 5000), 1000, 60000)` exactly as
      written: a stored value that is not a number comes through as NaN. */
  function TimeoutAsWritten(p: StoredPolicy): (r: JsNum)
    ensures r.Num? ==> 1000 <= r.n <= 60000
    ensures p.timeoutMs == Some(NaN) ==> r == NaN
    ensures p.timeoutMs.None? ==> r == Num(5000)
  {
    ClampJs(if p.timeoutMs.Some? then p.timeoutMs.value else Num(5000), 1000, 60000)
  }

  /** The delay `setTimeout` waits before it aborts the request: a NaN or
      negative delay is taken as 0, so the timer fires on the next turn of
      the event loop. */
  function TimerDelay(t: JsNum): (r: nat)
  {
    match t
    case NaN => 0
    case Num(n) => if n < 0 then 0 else n
  }

  /** The as-written abort timer waits the effective timeout on every
      numeric or absent `timeoutMs`. */
  lemma {:induction false} TimeoutAgreesOnNumbers(p: StoredPolicy)
    requires p.timeoutMs != Some(NaN)
    ensures TimerDelay(TimeoutAsWritten(p)) == EffectivePolicy(p).timeoutMs
  {
  }

  /** With a non-numeric `timeoutMs` the abort timer as written waits 0 ms,
      so every attempt is aborted before a response can arrive; the
      effective policy waits the default 5000 ms. */
  lemma NaNTimeoutAbortsAtOnce(p: StoredPolicy)
    requires p.timeoutMs == Some(NaN)
    ensures TimerDelay(TimeoutAsWritten(p)) == 0
    ensures EffectivePolicy(p).timeoutMs == 5000
  {
  }

  // ---------------------------------------------------------------------
  // Fractional policy numbers
  // ---------------------------------------------------------------------

  /** What the attempt loop as written does when every attempt fails: how
      many attempts it makes, how many times it sleeps, and whether it
      reaches the write of the subscription that records the failure. */
  datatype FailedRun = FailedRun(attempts: nat, sleeps: nat, stored: bool)

  /** The attempt loop as written from `attempt` on, every attempt failing,
      on a retry bound that may be fractional (the subscription update
      handler stores a policy without checking it): it runs while
      `attempt <= retries`, sleeps and continues while `attempt < retries`,
      and writes the subscription back only from an attempt not below
      `retries`. */
  function FailingRunFrom(retries: real, attempt: nat): (r: FailedRun)
    requires retries <= 20.0 && attempt <= 21
    ensures r.attempts <= 21 - attempt
    decreases 21 - attempt
  {
    if !(attempt as real <= retries) then FailedRun(0, 0, false)
    else if attempt as real < retries then
      var rest := FailingRunFrom(retries, attempt + 1);
      FailedRun(rest.attempts + 1, rest.sleeps + 1, rest.stored)
    else FailedRun(1, 0, true)
  }

  /** On a whole retry bound n the loop makes n + 1 attempts, sleeps between
      them and records the failure: the run `AllFailed` describes. */
  lemma {:induction false} WholeRetriesStore(n: nat, attempt: nat)
    requires n <= 20 && attempt <= n
    ensures FailingRunFrom(n as real, attempt) == FailedRun(n + 1 - attempt, n - attempt, true)
    decreases n - attempt
  {
    if attempt < n {
      WholeRetriesStore(n, attempt + 1);
    }
  }

  /** On a fractional retry bound r the loop makes floor(r) + 1 attempts,
      sleeps after every one of them, the last included, and leaves without
      writing the subscription back: no `lastDelivery`, no `failureCount`
      increment, never disabled. */
  lemma {:induction false} FractionalRetriesFrom(r: real, attempt: nat)
    requires 0.0 <= r <= 20.0 && (r.Floor as real) < r && attempt <= r.Floor + 1
    ensures FailingRunFrom(r, attempt) == FailedRun(r.Floor + 1 - attempt, r.Floor + 1 - attempt, false)
    decreases r.Floor + 1 - attempt
  {
    if attempt <= r.Floor {
      FractionalRetriesFrom(r, attempt + 1);
    }
  }

  /** A stored `retries` of 2.5: three failed attempts, three sleeps and no
      write of the subscription (a whole 2 records the failure after three,
      by `WholeRetriesStore`). */
  lemma FractionalRetriesSkipHealth()
    ensures FailingRunFrom(2.5, 0) == FailedRun(3, 3, false)
  {
    assert (2.5).Floor == 2;
    FractionalRetriesFrom(2.5, 0);
  }

  /** The retry bound read as a whole number of retries in [0, 20]: with it
      the loop makes one attempt more than the bound and always records the
      failure of the last one. */
  function WholeRetries(x: real): (r: nat)
    ensures r <= 20
    ensures 0.0 <= x <= 20.0 ==> r == x.Floor
    ensures FailingRunFrom(r as real, 0) == FailedRun(r + 1, r, true)
  {
    var n := if x < 0.0 then 0 else if x >= 20.0 then 20 else x.Floor;
    WholeRetriesStore(n, 0);
    n
  }

  /** A fractional threshold t > 0 disables exactly where its ceiling does:
      a stored 0.5 disables the subscription at its first failure. */
  lemma FractionalThresholdCeiling(t: real, failures: int)
    requires 0.0 < t
    ensures (failures as real >= t) <==> DisablesAsWritten(Num(-((-t).Floor)), failures)
    ensures t <= 1.0 ==> (failures as real >= t <==> failures >= 1)
  {
  }

  // ---------------------------------------------------------------------
  // Backoff
  // ---------------------------------------------------------------------

  /** `computeBackoffMs(mode, n)`: 1000 in fixed mode; otherwise
      `min(15000, 1000 * 2^(n-1))`, which for n = 0 is 500. */
  function BackoffMs(mode: Backoff, n: nat): (r: nat)
    ensures mode == Fixed ==> r == 1000
  {
    if mode == Fixed then 1000
    else if n == 0 then 500
    else Min(15000, 1000 * Pow2(n - 1))
  }

  /** The exponential schedule for retry n = attempt + 1 is 1s, 2s, 4s, 8s
      and 15s from the fifth on; every wait lies in [500, 15000]. */
  lemma BackoffSchedule(mode: Backoff, n: nat)
    ensures 500 <= BackoffMs(mode, n) <= 15000
    ensures mode == Expo && 1 <= n <= 4 ==> BackoffMs(mode, n) == 1000 * Pow2(n - 1)
    ensures mode == Expo && n >= 5 ==> BackoffMs(mode, n) == 15000
  {
    if mode == Expo && n >= 5 {
      Pow2Monotonic(4, n - 1);
      assert Pow2(4) == 16;
    }
  }

  function Sum(s: seq<nat>): nat
  {
    if s == [] then 0 else s[0] + Sum(s[1..])
  }

  // ---------------------------------------------------------------------
  // Headers and signing
  // ---------------------------------------------------------------------

  predicate Signs(sg: Signing)
  {
    sg.mode == "hmac-sha256" && sg.secret != ""
  }

  function SignatureHeader(sg: Signing): string
  {
    if sg.header == "" then "X-PromoHubAI-Signature" else sg.header
  }

  /** The headers the engine sets before the static ones. */
  function EngineHeaders(eventId: string, eventType: string, deliveryId: string): map<string, string>
  {
    map[
      "Content-Type" := "application/json",
      "User-Agent" := "PromoHubAI-Webhooks/1.0",
      "X-PromoHubAI-Event-Id" := eventId,
      "X-PromoHubAI-Event-Type" := eventType,
      "X-PromoHubAI-Delivery-Id" := deliveryId]
  }

  /** The trimmed value of the last static header whose trimmed name is k
      (never for a blank name). */
  function LastStatic(hs: seq<Header>, k: string): Option<string>
  {
    if hs == [] then None
    else
      var h := hs[|hs| - 1];
      if k != "" && Trim(h.name) == k then Some(Trim(h.value)) else LastStatic(hs[..|hs| - 1], k)
  }

  /** The header map of the outbound request: the `base` headers, then the
      static headers written over them in order, then the signature `sig`
      under the signature header when signing is on and a secret exists. */
  function RequestHeaders(base: map<string, string>, statics: seq<Header>, sg: Signing, sig: string)
    : map<string, string>
  {
    var m := Applied(base, statics);
    if Signs(sg) then m[SignatureHeader(sg) := sig] else m
  }

  /** Which name carries which value: the signature wins over a static
      header, and the last static header of a name wins over the base. */
  lemma HeadersLookup(base: map<string, string>, statics: seq<Header>, sg: Signing, sig: string)
    ensures forall k :: k in RequestHeaders(base, statics, sg, sig) <==>
      k in base || LastStatic(statics, k).Some? || (Signs(sg) && k == SignatureHeader(sg))
    ensures forall k :: k in RequestHeaders(base, statics, sg, sig) ==>
      RequestHeaders(base, statics, sg, sig)[k] ==
        (if Signs(sg) && k == SignatureHeader(sg) then sig
         else if LastStatic(statics, k).Some? then LastStatic(statics, k).value
         else base[k])
  {
    AppliedLookup(base, statics);
  }

  /** The outbound headers: the engine's own, overridden by the static
      headers, overridden by `sha256=<hmac hex>` when signing is on. */
  method BuildHeaders(
    eventId: string, eventType: string, deliveryId: string,
    statics: seq<Header>, sg: Signing, rawBody: string,
    hmac: (string, string) -> string)
    returns (headers: map<string, string>)
    ensures headers == RequestHeaders(EngineHeaders(eventId, eventType, deliveryId), statics, sg,
                                      "sha256=" + hmac(sg.secret, rawBody))
    ensures Signs(sg) ==> SignatureHeader(sg) in headers
    ensures Signs(sg) ==> headers[SignatureHeader(sg)] == "sha256=" + hmac(sg.secret, rawBody)
  {
    var base := EngineHeaders(eventId, eventType, deliveryId);
    headers := base;
    var i := 0;
    while i < |statics|
      invariant 0 <= i <= |statics|
      invariant headers == Applied(base, statics[..i])
    {
      var k := Trim(statics[i].name);
      var v := Trim(statics[i].value);
      assert statics[..i + 1][..i] == statics[..i];
      if k != "" {
        headers := headers[k := v];
      }
      i := i + 1;
    }
    assert statics[..i] == statics;
    if Signs(sg) {
      headers := headers[SignatureHeader(sg) := "sha256=" + hmac(sg.secret, rawBody)];
    }
  }

  /** `base` with the static headers written over it in order, each under
      its trimmed name with its trimmed value, blank names skipped. */
  function Applied(base: map<string, string>, hs: seq<Header>): map<string, string>
  {
    if hs == [] then base
    else
      var m := Applied(base, hs[..|hs| - 1]);
      var h := hs[|hs| - 1];
      if Trim(h.name) != "" then m[Trim(h.name) := Trim(h.value)] else m
  }

  /** Writing the static headers in order leaves, under each name, the
      value of the last static header of that name, or the base value. */
  lemma {:induction false} AppliedLookup(base: map<string, string>, hs: seq<Header>)
    ensures forall k :: k in Applied(base, hs) <==> k in base || LastStatic(hs, k).Some?
    ensures forall k :: k in Applied(base, hs) ==>
      Applied(base, hs)[k] == (if LastStatic(hs, k).Some? then LastStatic(hs, k).value else base[k])
  {
    if hs != [] {
      var init, h := hs[..|hs| - 1], hs[|hs| - 1];
      AppliedLookup(base, init);
      var m, n, v := Applied(base, init), Trim(h.name), Trim(h.value);
      assert Applied(base, hs) == if n != "" then m[n := v] else m;
      forall k
        ensures k in Applied(base, hs) <==> k in base || LastStatic(hs, k).Some?
        ensures k in Applied(base, hs) ==>
          Applied(base, hs)[k] == (if LastStatic(hs, k).Some? then LastStatic(hs, k).value else base[k])
      {
        assert LastStatic(hs, k) == if k != "" && n == k then Some(v) else LastStatic(init, k);
      }
    }
  }

  /** The static headers are applied after the engine's own, so a static
      header named like an engine header replaces it. */
  lemma StaticHeaderOverrides(name: string, v: string)
    requires name != "" && Trimmed(name)
    ensures LastStatic([Header(name, v)], name) == Some(Trim(v))
  {
    TrimTrimmed(name);
  }

  // ---------------------------------------------------------------------
  // The retry loop, as a specification
  // ---------------------------------------------------------------------

  predicate Succeeded(o: Outcome)
  {
    o.Response? && 200 <= o.status < 300
  }

  function LatencyOf(o: Outcome): nat
  {
    match o
    case Response(_, l) => l
    case Aborted(l) => l
    case NetworkError(_, l) => l
  }

  /** The error text of a transport failure: "Timeout" for an abort, else the
      message, or "Fetch error" when there is none. */
  function TransportError(o: Outcome): DeliveryError
    requires !o.Response?
  {
    if o.Aborted? then Timeout
    else Transport(if o.message == "" then "Fetch error" else o.message)
  }

  function Summary(o: Outcome): (r: DeliverySummary)
    ensures r.ok <==> Succeeded(o)
    ensures r.latencyMs == LatencyOf(o)
  {
    match o
    case Response(st, l) =>
      var ok := 200 <= st < 300;
      DeliverySummary(ok, Some(st), l, if ok then None else Some(HttpStatus(st)))
    case _ => DeliverySummary(false, None, LatencyOf(o), Some(TransportError(o)))
  }

  function Record(deliveryId: string, i: nat, sub: Subscription, eventId: string, o: Outcome): (r: AttemptRecord)
    ensures r.id == deliveryId && r.attempt == i
    ensures r.ok <==> Succeeded(o)
  {
    match o
    case Response(st, l) => AttemptRecord(deliveryId, i, sub.id, eventId, 200 <= st < 300, Some(st), l, None)
    case _ => AttemptRecord(deliveryId, i, sub.id, eventId, false, None, LatencyOf(o), Some(TransportError(o)))
  }

  /** The number of attempts from index i on: the loop stops at the first
      success or after attempt `retries`. */
  function AttemptsFrom(outcomes: seq<Outcome>, retries: nat, i: nat): (n: nat)
    requires i <= retries < |outcomes|
    ensures i < n <= retries + 1
    ensures forall j :: i <= j < n - 1 ==> !Succeeded(outcomes[j])
    ensures n <= retries ==> Succeeded(outcomes[n - 1])
    decreases retries - i
  {
    if Succeeded(outcomes[i]) || i == retries then i + 1
    else AttemptsFrom(outcomes, retries, i + 1)
  }

  /** The number of attempts of one delivery: one more than the index of the
      first success, or `retries + 1` when none of them succeeds. */
  function Attempts(outcomes: seq<Outcome>, retries: nat): (n: nat)
    requires retries < |outcomes|
    ensures 1 <= n <= retries + 1
    ensures forall j :: 0 <= j < n - 1 ==> !Succeeded(outcomes[j])
    ensures n <= retries ==> Succeeded(outcomes[n - 1])
  {
    AttemptsFrom(outcomes, retries, 0)
  }

  /** The attempt records of the first n attempts, one per attempt index. */
  function Records(deliveryId: string, sub: Subscription, eventId: string, outcomes: seq<Outcome>, n: nat): (r: seq<AttemptRecord>)
    requires n <= |outcomes|
    ensures |r| == n
    ensures forall i :: 0 <= i < n ==> r[i] == Record(deliveryId, i, sub, eventId, outcomes[i])
  {
    seq(n, i requires 0 <= i < n => Record(deliveryId, i, sub, eventId, outcomes[i]))
  }

  /** The waits between the first n attempts: after failed attempt i the
      loop sleeps `computeBackoffMs(mode, i + 1)`. */
  function Waits(mode: Backoff, n: nat): (r: seq<nat>)
    ensures |r| == n
    ensures forall i :: 0 <= i < n ==> r[i] == BackoffMs(mode, i + 1)
  {
    seq(n, i requires 0 <= i < n => BackoffMs(mode, i + 1))
  }

  /** The circuit breaker after a delivery sequence: a success resets
      `failureCount`; exhausting the retries adds exactly one to it and turns
      `enabled` off once a positive threshold is reached. `lastDelivery` is
      the outcome of the last attempt. */
  function HealthAfter(sub: Subscription, p: Policy, last: Outcome): (r: Subscription)
    ensures r.lastDelivery == Some(Summary(last))
    ensures Succeeded(last) ==> r.failureCount == 0 && r.enabled == sub.enabled
    ensures !Succeeded(last) ==> r.failureCount == sub.failureCount + 1
    ensures !Succeeded(last) ==>
      (r.enabled <==> sub.enabled && !(p.disableAfterFailures > 0 && sub.failureCount + 1 >= p.disableAfterFailures))
    ensures r.(lastDelivery := sub.lastDelivery, failureCount := sub.failureCount, enabled := sub.enabled) == sub
  {
    if Succeeded(last) then
      sub.(lastDelivery := Some(Summary(last)), failureCount := 0)
    else
      var fc := sub.failureCount + 1;
      sub.(lastDelivery := Some(Summary(last)), failureCount := fc,
           enabled := if p.disableAfterFailures > 0 && fc >= p.disableAfterFailures then false else sub.enabled)
  }

  /** The subscription as the dispatcher stores it after one delivery. */
  function Delivered(sub: Subscription, outcomes: seq<Outcome>): Subscription
    requires EffectivePolicy(sub.policy).retries < |outcomes|
  {
    var p := EffectivePolicy(sub.policy);
    HealthAfter(sub, p, outcomes[Attempts(outcomes, p.retries) - 1])
  }

  // ---------------------------------------------------------------------
  // Properties of one delivery
  // ---------------------------------------------------------------------

  /** A delivery makes between 1 and 21 attempts. */
  lemma AttemptsBounded(sub: Subscription, outcomes: seq<Outcome>)
    requires EffectivePolicy(sub.policy).retries < |outcomes|
    ensures 1 <= Attempts(outcomes, EffectivePolicy(sub.policy).retries) <= 21
  {
  }

  /** From attempt i on, the loop runs up to and including the first
      success k. */
  lemma {:induction false} AttemptsFromFirstSuccess(outcomes: seq<Outcome>, retries: nat, i: nat, k: nat)
    requires i <= k <= retries < |outcomes|
    requires Succeeded(outcomes[k])
    requires forall j :: i <= j < k ==> !Succeeded(outcomes[j])
    ensures AttemptsFrom(outcomes, retries, i) == k + 1
    decreases k - i
  {
    if i < k {
      AttemptsFromFirstSuccess(outcomes, retries, i + 1, k);
    }
  }

  /** The first success ends the loop. */
  lemma FirstSuccessStops(outcomes: seq<Outcome>, retries: nat, k: nat)
    requires k <= retries < |outcomes|
    requires Succeeded(outcomes[k])
    requires forall j :: 0 <= j < k ==> !Succeeded(outcomes[j])
    ensures Attempts(outcomes, retries) == k + 1
  {
    AttemptsFromFirstSuccess(outcomes, retries, 0, k);
  }

  /** From attempt i on, with no success the loop runs to the last attempt. */
  lemma {:induction false} AttemptsFromNoSuccess(outcomes: seq<Outcome>, retries: nat, i: nat)
    requires i <= retries < |outcomes|
    requires forall j :: i <= j <= retries ==> !Succeeded(outcomes[j])
    ensures AttemptsFrom(outcomes, retries, i) == retries + 1
    decreases retries - i
  {
    if i < retries {
      AttemptsFromNoSuccess(outcomes, retries, i + 1);
    }
  }

  /** When every attempt fails, all `retries + 1` of them are made and the
      subscription's `failureCount` grows by exactly one. */
  lemma AllFailed(sub: Subscription, outcomes: seq<Outcome>)
    requires EffectivePolicy(sub.policy).retries < |outcomes|
    requires forall j :: 0 <= j <= EffectivePolicy(sub.policy).retries ==> !Succeeded(outcomes[j])
    ensures Attempts(outcomes, EffectivePolicy(sub.policy).retries) == EffectivePolicy(sub.policy).retries + 1
    ensures Delivered(sub, outcomes).failureCount == sub.failureCount + 1
    ensures Delivered(sub, outcomes).lastDelivery.value.ok == false
  {
    AttemptsFromNoSuccess(outcomes, EffectivePolicy(sub.policy).retries, 0);
  }

  /** With `retries = 3`, fixed backoff and an endpoint that always answers
      500: four records with indices 0..3, a failed `lastDelivery`, one more
      failure counted, and three one-second waits. */
  lemma FourAttemptsOn500(sub: Subscription, outcomes: seq<Outcome>, deliveryId: string, eventId: string)
    requires sub.policy.retries == Some(Num(3)) && sub.policy.backoff == "fixed"
    requires |outcomes| == 4 && forall j :: 0 <= j < 4 ==> outcomes[j] == Response(500, 10)
    ensures Attempts(outcomes, 3) == 4
    ensures var recs := Records(deliveryId, sub, eventId, outcomes, 4);
      forall i :: 0 <= i < 4 ==> recs[i].attempt == i && !recs[i].ok && recs[i].status == Some(500)
    ensures Delivered(sub, outcomes).failureCount == sub.failureCount + 1
    ensures !Delivered(sub, outcomes).lastDelivery.value.ok
    ensures Waits(Fixed, 3) == [1000, 1000, 1000]
  {
    AllFailed(sub, outcomes);
  }

  /** An endpoint that fails once and then succeeds, with at least one
      retry: exactly two attempts, the second a success, and the counter
      back at zero. */
  lemma FailOnceThenSucceed(sub: Subscription, outcomes: seq<Outcome>, deliveryId: string, eventId: string)
    requires EffectivePolicy(sub.policy).retries >= 1
    requires EffectivePolicy(sub.policy).retries < |outcomes|
    requires !Succeeded(outcomes[0]) && Succeeded(outcomes[1])
    ensures Attempts(outcomes, EffectivePolicy(sub.policy).retries) == 2
    ensures Records(deliveryId, sub, eventId, outcomes, 2)[1].ok
    ensures Delivered(sub, outcomes).failureCount == 0
    ensures Delivered(sub, outcomes).lastDelivery.value.ok
  {
    FirstSuccessStops(outcomes, EffectivePolicy(sub.policy).retries, 1);
  }

  /** The circuit breaker over consecutive deliveries: with threshold 2 and
      two exhausted deliveries in a row the subscription ends disabled, and
      from then on no event matches it. */
  lemma {:induction false} TwoFailedDeliveriesDisable(
    sub: Subscription, o1: seq<Outcome>, o2: seq<Outcome>, eventType: string, labels: Labels)
    requires sub.failureCount == 0
    requires sub.policy.disableAfterFailures == Some(Num(2))
    requires EffectivePolicy(sub.policy).retries < |o1| && EffectivePolicy(sub.policy).retries < |o2|
    requires forall j :: 0 <= j < |o1| ==> !Succeeded(o1[j])
    requires forall j :: 0 <= j < |o2| ==> !Succeeded(o2[j])
    ensures Delivered(sub, o1).enabled == sub.enabled
    ensures !Delivered(Delivered(sub, o1), o2).enabled
    ensures !Matches(Delivered(Delivered(sub, o1), o2), eventType, labels)
  {
    AllFailed(sub, o1);
    var s1 := Delivered(sub, o1);
    assert s1.policy == sub.policy;
    AllFailed(s1, o2);
  }

  /** The total time spent waiting is at most 15 s per retry. */
  lemma WaitsBounded(mode: Backoff, n: nat)
    ensures Sum(Waits(mode, n)) <= 15000 * n
  {
    var w := Waits(mode, n);
    forall i | 0 <= i < n
      ensures w[i] <= 15000
    {
      BackoffSchedule(mode, i + 1);
    }
    SumBounded(w, 15000);
  }

  lemma {:induction false} SumBounded(w: seq<nat>, bound: nat)
    requires forall i :: 0 <= i < |w| ==> w[i] <= bound
    ensures Sum(w) <= bound * |w|
  {
    if w != [] {
      assert forall i :: 0 <= i < |w[1..]| ==> w[1..][i] == w[i + 1];
      SumBounded(w[1..], bound);
    }
  }

  // ---------------------------------------------------------------------
  // The store and the imperative handlers
  // ---------------------------------------------------------------------

  datatype IngestBody = IngestBody(eventTypeId: string, labels: Option<Labels>, occurredAt: string, payload: string)

  datatype IngestError = Unauthorized | InvalidJson | MissingEventType

  datatype IngestResult =
    | Accepted(eventId: string, receivedAt: string, matched: seq<Subscription>)
    | Rejected(error: IngestError)

  /** The event an accepted request stores: id `evt_<uuid>`, the trimmed
      type, `occurredAt` defaulting to the receive time, and no labels when
      the body has none. */
  function Received(b: IngestBody, uuid: string, receivedAt: string): (e: Event)
  {
    Event("evt_" + uuid, Trim(b.eventTypeId), if b.occurredAt != "" then b.occurredAt else receivedAt,
          receivedAt, if b.labels.Some? then b.labels.value else map[], b.payload)
  }

  /** The recent-events index after `unshift(id)` and `slice(0, 200)`. */
  function PrependCapped(index: seq<string>, id: string): (r: seq<string>)
    ensures |r| == Min(200, |index| + 1)
    ensures r[0] == id
    ensures r[1..] == index[..|r| - 1]
  {
    var arr := [id] + index;
    arr[..Min(200, |arr|)]
  }

  /** The subscriptions the index names that exist and carry an id, in index
      order. */
  function Loaded(ids: seq<string>, stored: map<string, Subscription>): (r: seq<Subscription>)
    ensures |r| <= |ids|
    ensures forall s :: s in r ==> s.id != "" && exists id :: id in ids && id in stored && stored[id] == s
  {
    if ids == [] then []
    else
      var rest := Loaded(ids[1..], stored);
      var id := ids[0];
      if id in stored && stored[id].id != "" then [stored[id]] + rest else rest
  }

  /** One tenant's part of the key/value store. `attempts` holds the attempt
      records in the order they were written. */
  class WebhookKv {
    var events: map<string, Event>
    var eventIndex: seq<string>
    var subscriptionIndex: seq<string>
    var subscriptions: map<string, Subscription>
    var attempts: seq<AttemptRecord>

    constructor (subscriptionIndex: seq<string>, subscriptions: map<string, Subscription>)
      ensures this.subscriptionIndex == subscriptionIndex && this.subscriptions == subscriptions
      ensures events == map[] && eventIndex == [] && attempts == []
    {
      this.subscriptionIndex := subscriptionIndex;
      this.subscriptions := subscriptions;
      events := map[];
      eventIndex := [];
      attempts := [];
    }

    /** The intake handler: validate, persist the event, push its id onto
        the capped index, load the catalog and select the matching
        subscriptions. Dispatch is left to `Deliver`. */
    method Ingest(authorized: bool, body: Option<IngestBody>, uuid: string, receivedAt: string)
      returns (r: IngestResult)
      modifies this
      ensures !authorized ==> r == Rejected(Unauthorized)
      ensures authorized && body.None? ==> r == Rejected(InvalidJson)
      ensures authorized && body.Some? && Trim(body.value.eventTypeId) == "" ==> r == Rejected(MissingEventType)
      ensures r.Accepted? <==> authorized && body.Some? && Trim(body.value.eventTypeId) != ""
      ensures r.Rejected? ==> events == old(events) && eventIndex == old(eventIndex)
      ensures r.Accepted? ==>
        var b := body.value;
        var e := Received(b, uuid, receivedAt);
        && authorized && Trim(b.eventTypeId) != ""
        && r.eventId == e.id && r.receivedAt == receivedAt
        && events == old(events)[e.id := e]
        && eventIndex == PrependCapped(old(eventIndex), e.id)
        && r.matched == Matched(Loaded(subscriptionIndex, subscriptions), e.eventType, e.labels)
      ensures subscriptions == old(subscriptions) && subscriptionIndex == old(subscriptionIndex)
      ensures attempts == old(attempts)
    {
      if !authorized {
        return Rejected(Unauthorized);
      }
      if body.None? {
        return Rejected(InvalidJson);
      }
      var b := body.value;
      var eventTypeId := Trim(b.eventTypeId);
      if eventTypeId == "" {
        return Rejected(MissingEventType);
      }
      var event := Received(b, uuid, receivedAt);
      StoreEvent(event);
      var subs := LoadSubscriptions();
      r := Accepted(event.id, receivedAt, Matched(subs, event.eventType, event.labels));
    }

    /** Saves the event and puts its id in front of the recent-events
        index, keeping the latest 200. */
    method StoreEvent(event: Event)
      modifies this
      ensures events == old(events)[event.id := event]
      ensures eventIndex == PrependCapped(old(eventIndex), event.id)
      ensures subscriptions == old(subscriptions) && subscriptionIndex == old(subscriptionIndex)
      ensures attempts == old(attempts)
    {
      events := events[event.id := event];
      var arr := [event.id] + eventIndex;
      eventIndex := arr[..Min(200, |arr|)];
    }

    /** The loop that reads each indexed subscription and keeps those that
        exist and carry an id. */
    method LoadSubscriptions() returns (subs: seq<Subscription>)
      ensures subs == Loaded(subscriptionIndex, subscriptions)
    {
      subs := [];
      var i := |subscriptionIndex|;
      while i > 0
        invariant 0 <= i <= |subscriptionIndex|
        invariant subs == Loaded(subscriptionIndex[i..], subscriptions)
      {
        i := i - 1;
        var id := subscriptionIndex[i];
        assert subscriptionIndex[i..][1..] == subscriptionIndex[i + 1..];
        if id in subscriptions && subscriptions[id].id != "" {
          subs := [subscriptions[id]] + subs;
        }
      }
    }

    /** `deliverOne`: up to `retries + 1` attempts with the outcomes the
        network supplies, one attempt record per attempt, a backoff wait
        after each failed attempt that has a successor, and the subscription
        stored once with its new health. */
    method Deliver(sub: Subscription, event: Event, rawBody: string, deliveryId: string,
                   outcomes: seq<Outcome>, hmac: (string, string) -> string)
      returns (request: Request, waits: seq<nat>)
      requires EffectivePolicy(sub.policy).retries < |outcomes|
      modifies this
      ensures attempts == old(attempts) + Records(deliveryId, sub, event.id, outcomes,
                                                  Attempts(outcomes, EffectivePolicy(sub.policy).retries))
      ensures waits == Waits(EffectivePolicy(sub.policy).backoff,
                             Attempts(outcomes, EffectivePolicy(sub.policy).retries) - 1)
      ensures subscriptions == old(subscriptions)[sub.id := Delivered(sub, outcomes)]
      ensures request.url == sub.endpoint.url && request.body == rawBody
      ensures request.verb == Upper(if sub.endpoint.verb == "" then "POST" else sub.endpoint.verb)
      ensures Signs(sub.signing) ==>
        SignatureHeader(sub.signing) in request.headers
        && request.headers[SignatureHeader(sub.signing)] == "sha256=" + hmac(sub.signing.secret, rawBody)
      ensures request.headers == RequestHeaders(EngineHeaders(event.id, event.eventType, deliveryId), sub.endpoint.headers,
                                        sub.signing, "sha256=" + hmac(sub.signing.secret, rawBody))
      ensures events == old(events) && eventIndex == old(eventIndex)
      ensures subscriptionIndex == old(subscriptionIndex)
    {
      request := BuildRequest(sub, event, rawBody, deliveryId, hmac);
      waits := RunAttempts(sub, event, deliveryId, outcomes);
    }

    /** The attempt loop of `Deliver`. */
    method RunAttempts(sub: Subscription, event: Event, deliveryId: string, outcomes: seq<Outcome>)
      returns (waits: seq<nat>)
      requires EffectivePolicy(sub.policy).retries < |outcomes|
      modifies this
      ensures attempts == old(attempts) + Records(deliveryId, sub, event.id, outcomes,
                                                  Attempts(outcomes, EffectivePolicy(sub.policy).retries))
      ensures waits == Waits(EffectivePolicy(sub.policy).backoff,
                             Attempts(outcomes, EffectivePolicy(sub.policy).retries) - 1)
      ensures subscriptions == old(subscriptions)[sub.id := Delivered(sub, outcomes)]
      ensures events == old(events) && eventIndex == old(eventIndex)
      ensures subscriptionIndex == old(subscriptionIndex)
    {
      var p := EffectivePolicy(sub.policy);
      waits := [];
      var s := sub;
      var attempt := 0;
      while attempt <= p.retries
        invariant attempt <= p.retries
        invariant attempt < Attempts(outcomes, p.retries)
        invariant attempts == old(attempts) + Records(deliveryId, sub, event.id, outcomes, attempt)
        invariant waits == Waits(p.backoff, attempt)
        invariant s == sub.(lastDelivery := s.lastDelivery)
        invariant subscriptions == old(subscriptions)
        invariant events == old(events) && eventIndex == old(eventIndex)
        invariant subscriptionIndex == old(subscriptionIndex)
        decreases p.retries - attempt
      {
        var o := outcomes[attempt];
        AttemptStep(outcomes, p.retries, attempt);
        RecordsSnoc(deliveryId, sub, event.id, outcomes, attempt);
        RecordAttempt(Record(deliveryId, attempt, sub, event.id, o));
        if o.Response? {
          s := s.(lastDelivery := Some(Summary(o)));
          if Succeeded(o) {
            s := s.(failureCount := 0);
            StoredHealth(sub, outcomes, attempt, s);
            StoreSubscription(sub.id, s);
            return;
          }
        }
        if attempt < p.retries {
          WaitsSnoc(p.backoff, attempt);
          waits := waits + [BackoffMs(p.backoff, attempt + 1)];
          attempt := attempt + 1;
          continue;
        }
        s := s.(lastDelivery := Some(Summary(o)), failureCount := s.failureCount + 1);
        if p.disableAfterFailures > 0 && s.failureCount >= p.disableAfterFailures {
          s := s.(enabled := false);
        }
        StoredHealth(sub, outcomes, attempt, s);
        StoreSubscription(sub.id, s);
        return;
      }
    }

    /** Stores one attempt record. */
    method RecordAttempt(rec: AttemptRecord)
      modifies this
      ensures attempts == old(attempts) + [rec]
      ensures subscriptions == old(subscriptions) && subscriptionIndex == old(subscriptionIndex)
      ensures events == old(events) && eventIndex == old(eventIndex)
    {
      attempts := attempts + [rec];
    }

    /** Stores a subscription under its id. */
    method StoreSubscription(id: string, s: Subscription)
      modifies this
      ensures subscriptions == old(subscriptions)[id := s]
      ensures attempts == old(attempts) && subscriptionIndex == old(subscriptionIndex)
      ensures events == old(events) && eventIndex == old(eventIndex)
    {
      subscriptions := subscriptions[id := s];
    }
  }

  /** The request every attempt of one delivery sends. */
  method BuildRequest(sub: Subscription, event: Event, rawBody: string, deliveryId: string,
                      hmac: (string, string) -> string)
    returns (request: Request)
    ensures request.url == sub.endpoint.url && request.body == rawBody
    ensures request.verb == Upper(if sub.endpoint.verb == "" then "POST" else sub.endpoint.verb)
    ensures Signs(sub.signing) ==>
      SignatureHeader(sub.signing) in request.headers
      && request.headers[SignatureHeader(sub.signing)] == "sha256=" + hmac(sub.signing.secret, rawBody)
    ensures request.headers == RequestHeaders(EngineHeaders(event.id, event.eventType, deliveryId), sub.endpoint.headers,
                                      sub.signing, "sha256=" + hmac(sub.signing.secret, rawBody))
  {
    var headers := BuildHeaders(event.id, event.eventType, deliveryId, sub.endpoint.headers,
                                sub.signing, rawBody, hmac);
    request := Request(Upper(if sub.endpoint.verb == "" then "POST" else sub.endpoint.verb),
                       sub.endpoint.url, headers, rawBody);
  }

  /** The subscription the loop stores at its last attempt is `Delivered`. */
  lemma StoredHealth(sub: Subscription, outcomes: seq<Outcome>, attempt: nat, s: Subscription)
    requires EffectivePolicy(sub.policy).retries < |outcomes|
    requires attempt + 1 == Attempts(outcomes, EffectivePolicy(sub.policy).retries)
    requires s == HealthAfter(sub, EffectivePolicy(sub.policy), outcomes[attempt])
    ensures s == Delivered(sub, outcomes)
  {
  }

  lemma AttemptStep(outcomes: seq<Outcome>, retries: nat, attempt: nat)
    requires attempt <= retries < |outcomes|
    requires attempt < Attempts(outcomes, retries)
    ensures Succeeded(outcomes[attempt]) || attempt == retries ==> Attempts(outcomes, retries) == attempt + 1
    ensures !Succeeded(outcomes[attempt]) && attempt < retries ==> attempt + 1 < Attempts(outcomes, retries)
  {
  }

  lemma RecordsSnoc(deliveryId: string, sub: Subscription, eventId: string, outcomes: seq<Outcome>, k: nat)
    requires k < |outcomes|
    ensures Records(deliveryId, sub, eventId, outcomes, k + 1)
         == Records(deliveryId, sub, eventId, outcomes, k) + [Record(deliveryId, k, sub, eventId, outcomes[k])]
  {
  }

  lemma WaitsSnoc(mode: Backoff, k: nat)
    ensures Waits(mode, k + 1) == Waits(mode, k) + [BackoffMs(mode, k + 1)]
  {
  }
}
