/** Webhook delivery: how a response is classified, how long to wait, and which settlement the worker sends. */
module Webhooks {
  import opened Options
  import opened Events
  import opened Text
  import opened Outbox

  const TWO_64: nat := 0x1_0000_0000_0000_0000
  const MAX_DURATION: nat := 0x7FFF_FFFF_FFFF_FFFF

  // ------------------------------------------------------------------ Retry-After

  lemma {:induction false} DecimalGrows(s: string, k: nat)
    requires k <= |s| && forall i :: 0 <= i < |s| ==> Digit(s[i])
    ensures DecimalValue(s[..k]) <= DecimalValue(s)
    decreases |s| - k
  {
    if k < |s| {
      DecimalGrows(s, k + 1);
      assert s[..k + 1][..k] == s[..k];
    } else {
      assert s[..k] == s;
    }
  }

  /** `strconv.ParseUint(s, 10, 64)`. */
  method ParseUint(s: string) returns (r: Option<nat>)
    ensures r.Some? <==> Decimal(s) && DecimalValue(s) < TWO_64
    ensures r.Some? ==> r.value == DecimalValue(s)
  {
    if s == "" {
      return None;
    }
    var n, i := 0, 0;
    while i < |s|
      invariant i <= |s| && (forall k :: 0 <= k < i ==> Digit(s[k])) && n == DecimalValue(s[..i]) && n < TWO_64
    {
      if !Digit(s[i]) {
        return None;
      }
      assert s[..i + 1][..i] == s[..i];
      n := n * 10 + DigitValue(s[i]);
      i := i + 1;
      if n >= TWO_64 {
        if Decimal(s) {
          DecimalGrows(s, i);
        }
        return None;
      }
    }
    assert s[..i] == s;
    r := Some(n);
  }

  function Min(a: int, b: int): int
  {
    if a < b then a else b
  }

  function Max(a: int, b: int): int
  {
    if a < b then b else a
  }

  /** What the header asks for, in nanoseconds; `date` is the time it parses to as an HTTP date, if it does. */
  function RetryAfterOf(raw: string, date: Option<int>, now: int, maximum: nat): nat
  {
    var text := Trim(raw);
    if text == "" then 0
    else if Decimal(text) && DecimalValue(text) < TWO_64 then
      if DecimalValue(text) > MAX_DURATION / SECOND then 0 else Min(DecimalValue(text) * SECOND, maximum)
    else if date == None then 0
    else Max(0, Min(date.value - now, maximum))
  }

  /**
   * Delay-seconds as section 10.2.3 of RFC 9110 means them, capped at the maximum, exactly if the number of seconds
   * fits into a duration. For a larger number the code asks for no delay at all. No HTTP date is made of digits only.
   */
  lemma DelaySecondsAreCapped(raw: string, now: int, maximum: nat)
    requires Decimal(Trim(raw)) && 0 < maximum <= MAX_RETRY_AFTER
    ensures
      var seconds := DecimalValue(Trim(raw));
      && (RetryAfterOf(raw, None, now, maximum) == Min(seconds * SECOND, maximum) <==> seconds <= MAX_DURATION / SECOND)
      && (seconds > MAX_DURATION / SECOND ==> RetryAfterOf(raw, None, now, maximum) == 0)
  {
    DecimalDelay(raw, now, maximum);
    CappedExactly(RetryAfterOf(raw, None, now, maximum), DecimalValue(Trim(raw)), maximum);
  }

  lemma CappedExactly(delay: nat, seconds: nat, maximum: nat)
    requires 0 < maximum
    requires delay == if seconds > MAX_DURATION / SECOND then 0 else Min(seconds * SECOND, maximum)
    ensures delay == Min(seconds * SECOND, maximum) <==> seconds <= MAX_DURATION / SECOND
    ensures seconds > MAX_DURATION / SECOND ==> delay == 0
  {
    assert seconds > 0 ==> seconds * SECOND > 0;
  }

  lemma DecimalDelay(raw: string, now: int, maximum: nat)
    requires Decimal(Trim(raw))
    ensures
      var seconds := DecimalValue(Trim(raw));
      RetryAfterOf(raw, None, now, maximum) ==
      if seconds > MAX_DURATION / SECOND then 0 else Min(seconds * SECOND, maximum)
  {
    assert MAX_DURATION / SECOND < TWO_64;
  }

  /** For every such number: who asks for so long is asked again after the ordinary backoff. */
  lemma LongDelayIsDropped(seconds: nat, now: int, maximum: nat)
    requires 0 < maximum <= MAX_RETRY_AFTER && seconds > MAX_DURATION / SECOND
    ensures RetryAfterOf(FormatNat(seconds), None, now, maximum) == 0 < Min(seconds * SECOND, maximum)
  {
    var raw := FormatNat(seconds);
    assert Trim(raw) == raw;
    FormatNatRoundTrip(seconds);
    DelaySecondsAreCapped(raw, now, maximum);
  }

  lemma OneMoreDigit(n: nat, digit: nat, text: string) returns (longer: nat)
    requires n > 0 && digit < 10 && FormatNat(n) == text
    ensures longer == 10 * n + digit && FormatNat(longer) == text + ['0' + digit as char]
  {
    longer := 10 * n + digit;
  }

  /** The smallest of them. */
  lemma SmallestLongDelay() returns (n: nat)
    ensures n == MAX_DURATION / SECOND + 1 && FormatNat(n) == ['9', '2', '2', '3', '3', '7', '2', '0', '3', '7']
  {
    n :| n == 9;
    n := OneMoreDigit(n, 2, ['9']);
    n := OneMoreDigit(n, 2, ['9', '2']);
    n := OneMoreDigit(n, 3, ['9', '2', '2']);
    n := OneMoreDigit(n, 3, ['9', '2', '2', '3']);
    n := OneMoreDigit(n, 7, ['9', '2', '2', '3', '3']);
    n := OneMoreDigit(n, 2, ['9', '2', '2', '3', '3', '7']);
    n := OneMoreDigit(n, 0, ['9', '2', '2', '3', '3', '7', '2']);
    n := OneMoreDigit(n, 3, ['9', '2', '2', '3', '3', '7', '2', '0']);
    n := OneMoreDigit(n, 7, ['9', '2', '2', '3', '3', '7', '2', '0', '3']);
  }

  /** The parser compares whole seconds before it multiplies, so nothing overflows. */
  method ParseRetryAfter(raw: string, date: Option<int>, now: int, maximum: nat) returns (delay: nat)
    requires maximum <= MAX_RETRY_AFTER
    ensures delay == RetryAfterOf(raw, date, now, maximum)
    ensures delay <= maximum
  {
    var text := Trim(raw);
    if text == "" {
      return 0;
    }
    var seconds := ParseUint(text);
    if seconds.Some? {
      if seconds.value > MAX_DURATION / SECOND {
        return 0;
      }
      if seconds.value > maximum / SECOND {
        return maximum;
      }
      return seconds.value * SECOND;
    }
    if date == None {
      return 0;
    }
    var wait := date.value - now;
    if wait <= 0 {
      return 0;
    }
    if wait > maximum {
      return maximum;
    }
    delay := wait;
  }

  // ---------------------------------------------------------------------- backoff

  function Power2(n: nat): nat
  {
    if n == 0 then 1 else 2 * Power2(n - 1)
  }

  lemma {:induction false} Power2Monotone(a: nat, b: nat)
    requires a <= b
    ensures 1 <= Power2(a) <= Power2(b)
    decreases b - a, a
  {
    if a < b {
      Power2Monotone(a, b - 1);
    } else if a > 0 {
      Power2Monotone(a - 1, a - 1);
    }
  }

  /** Exponential backoff before jitter. */
  function Exponential(base: nat, maximum: nat, attempt: nat): nat
    requires attempt > 0
  {
    Min(base * Power2(attempt - 1), maximum)
  }

  lemma TimesMonotone(x: nat, a: nat, b: nat)
    requires a <= b
    ensures x * a <= x * b
  {
  }

  /** The doubling loop never exceeds the maximum and stops there. */
  method DoublingDelay(base: nat, maximum: nat, attempt: nat) returns (delay: nat)
    requires 0 < base <= maximum && attempt > 0
    ensures delay == Exponential(base, maximum, attempt)
    ensures base <= delay <= maximum
  {
    delay := base;
    var remaining := attempt - 1;
    while remaining > 0 && delay < maximum
      invariant base <= delay <= maximum && remaining <= attempt - 1
      invariant
        || delay == base * Power2(attempt - 1 - remaining)
        || (delay == maximum && maximum <= base * Power2(attempt - 1 - remaining))
      decreases remaining
    {
      if delay > maximum / 2 {
        delay := maximum;
        Power2Monotone(attempt - remaining, attempt - 1);
        TimesMonotone(base, Power2(attempt - remaining), Power2(attempt - 1));
        DoublePower(base, attempt - remaining);
        assert base * Power2(attempt - 1) >= maximum;
        return;
      }
      DoublePower(base, attempt - remaining);
      delay := delay * 2;
      remaining := remaining - 1;
    }
    Power2Monotone(attempt - 1 - remaining, attempt - 1);
    TimesMonotone(base, Power2(attempt - 1 - remaining), Power2(attempt - 1));
  }

  lemma DoublePower(base: nat, n: nat)
    requires n > 0
    ensures base * Power2(n) == 2 * (base * Power2(n - 1))
  {
  }

  /** `high` word of the 128-bit product: uniform below `delay`. */
  lemma JitterBelowDelay(entropy: nat, delay: nat)
    requires entropy < TWO_64 && delay > 0
    ensures 0 <= entropy * delay / TWO_64 < delay
  {
  }

  /**
   * The wait before the next attempt: half of the backoff plus jitter, at least the capped Retry-After, at most the
   * maximum.
   */
  method Backoff(base: int, maximum: int, attempt: nat, retryAfter: int, entropy: nat) returns (delay: Option<nat>)
    requires entropy < TWO_64
    ensures delay.Some? <==> 0 < base <= maximum <= MAX_RETRY_AFTER && attempt > 0
    ensures delay.Some? ==>
      var wait := Exponential(base, maximum, attempt);
      var jittered := Min(wait / 2 + entropy * wait / TWO_64, maximum);
      var asked := Max(0, Min(retryAfter, maximum));
      && delay.value == Max(jittered, asked)
      && wait / 2 <= delay.value && asked <= delay.value <= maximum
      && wait / 2 + entropy * wait / TWO_64 <= MAX_DURATION
  {
    if base <= 0 || maximum < base || maximum > MAX_RETRY_AFTER || attempt == 0 {
      return None;
    }
    var wait := DoublingDelay(base, maximum, attempt);
    JitterBelowDelay(entropy, wait);
    var high := entropy * wait / TWO_64;
    var jittered := wait / 2 + high;
    if jittered > maximum {
      jittered := maximum;
    }
    var asked := retryAfter;
    if asked < 0 {
      asked := 0;
    }
    if asked > maximum {
      asked := maximum;
    }
    if asked > jittered {
      jittered := asked;
    }
    delay := Some(jittered);
  }

  // --------------------------------------------------------------------- delivery

  /** What became of one request. */
  datatype Exchange =
    | InvalidDelivery
    | UnsafeDestination
    | NetworkFailure
    | Response(status: int, retryAfter: string, date: Option<int>, at: int)

  datatype Outcome = Outcome(disposition: Disposition, httpStatus: int, retryAfter: nat, errorCode: string)

  function DeliverOutcome(e: Exchange, retryAfterMaximum: int): Outcome
  {
    if retryAfterMaximum <= 0 || retryAfterMaximum > MAX_RETRY_AFTER
    then Outcome(PermanentFailure, 0, 0, "configuration")
    else
      match e
      case InvalidDelivery => Outcome(PermanentFailure, 0, 0, "invalid_delivery")
      case UnsafeDestination => Outcome(PermanentFailure, 0, 0, "unsafe_destination")
      case NetworkFailure => Outcome(RetryOutcome, 0, 0, "network")
      case Response(status, retryAfter, date, at) =>
        if status < 200 || status > 599 then Outcome(PermanentFailure, 0, 0, "invalid_delivery")
        else if status < 300 then Outcome(DeliveredOutcome, status, 0, "")
        else if status == 408 || status == 425 || status == 429 || status >= 500 then
          Outcome(RetryOutcome, status, RetryAfterOf(retryAfter, date, at, retryAfterMaximum), "http_retryable")
        else Outcome(PermanentFailure, status, 0, "http_permanent")
  }

  /** The classification and the settlement validator draw the same lines. */
  lemma ClassificationAgrees(e: Exchange, retryAfterMaximum: int)
    requires 0 < retryAfterMaximum <= MAX_RETRY_AFTER
    ensures
      var o := DeliverOutcome(e, retryAfterMaximum);
      && o.retryAfter <= retryAfterMaximum
      && (o.disposition == DeliveredOutcome <==> e.Response? && 200 <= e.status <= 299)
      && (o.disposition == RetryOutcome <==> e.NetworkFailure? || (e.Response? && RetryableHttpStatus(e.status)))
      && (o.errorCode == "http_permanent" <==> e.Response? && PermanentHttpStatus(e.status))
      && (e.NetworkFailure? ==> o == Outcome(RetryOutcome, 0, 0, "network"))
      && (e.Response? && RetryableHttpStatus(e.status) ==>
            o == Outcome(RetryOutcome, e.status, RetryAfterOf(e.retryAfter, e.date, e.at, retryAfterMaximum),
                         "http_retryable"))
  {
  }

  // ---------------------------------------------------------------------- worker

  datatype WorkerConfig = WorkerConfig(base: int, maximum: int, maximumAttempts: nat)

  predicate ValidWorkerConfig(cfg: WorkerConfig)
  {
    0 < cfg.base <= cfg.maximum <= MAX_RETRY_AFTER && 0 < cfg.maximumAttempts <= 100
  }

  /** Why the worker settles without sending anything. */
  datatype Refusal = DeliveryExpired | UnsafeUrl | SecretUndecipherable | NoDeliverer

  function RefusalCode(r: Refusal): string
  {
    match r
    case DeliveryExpired => "delivery_expired"
    case UnsafeUrl => "unsafe_destination"
    case SecretUndecipherable => "callback_decrypt"
    case NoDeliverer => "configuration"
  }

  datatype Attempted = Refused(refusal: Refusal) | Sent(exchange: Exchange)

  /**
   * A retry without any wait: base delay 1 ns, at the last attempt or before the delay has doubled, nothing asked for.
   */
  predicate NoWait(cfg: WorkerConfig, attempt: nat, o: Outcome)
    requires cfg.base >= 0 && cfg.maximum >= 0 && attempt > 0
  {
    && o.disposition == RetryOutcome && cfg.base == 1
    && (attempt >= cfg.maximumAttempts || (Exponential(cfg.base, cfg.maximum, attempt) == 1 && o.retryAfter == 0))
  }

  /** The settlement `processNext` sends for claim number `attempt`. */
  method BuildSettlement(cfg: WorkerConfig, attempt: nat, a: Attempted, entropy: nat) returns (s: Settlement)
    requires ValidWorkerConfig(cfg) && attempt > 0 && entropy < TWO_64
    ensures ValidSettlement(s) <==> !(a.Sent? && NoWait(cfg, attempt, DeliverOutcome(a.exchange, cfg.maximum)))
    ensures cfg.base >= 2 ==> ValidSettlement(s)
    ensures s.retryAt == None && 0 <= s.retryDelay <= cfg.maximum
    ensures a.Refused? ==> s.disposition == PermanentFailure && s.errorCode == RefusalCode(a.refusal)
    ensures a.Sent? ==>
      var o := DeliverOutcome(a.exchange, cfg.maximum);
      s.disposition == o.disposition && s.httpStatus == o.httpStatus && s.errorCode == o.errorCode
    ensures a.Sent? && s.disposition == RetryOutcome && attempt < cfg.maximumAttempts ==>
      var wait := Exponential(cfg.base, cfg.maximum, attempt);
      var asked := DeliverOutcome(a.exchange, cfg.maximum).retryAfter;
      && s.retryDelay == Max(Min(wait / 2 + entropy * wait / TWO_64, cfg.maximum), asked)
      && wait / 2 <= s.retryDelay && asked <= s.retryDelay
    ensures a.Sent? && s.disposition == RetryOutcome && attempt >= cfg.maximumAttempts ==> s.retryDelay == cfg.base / 2
  {
    if a.Refused? {
      return Settlement(PermanentFailure, 0, RefusalCode(a.refusal), None, 0);
    }
    var o := DeliverOutcome(a.exchange, cfg.maximum);
    ClassificationAgrees(a.exchange, cfg.maximum);
    s := Settlement(o.disposition, o.httpStatus, o.errorCode, None, 0);
    if o.disposition == RetryOutcome {
      var delay := cfg.base / 2;
      if attempt < cfg.maximumAttempts {
        var backoff := Backoff(cfg.base, cfg.maximum, attempt, o.retryAfter, entropy);
        BaseBelowExponential(cfg.base, cfg.maximum, attempt);
        delay := backoff.value;
      }
      s := s.(retryDelay := delay);
    }
  }

  lemma BaseBelowExponential(base: nat, maximum: nat, attempt: nat)
    requires base <= maximum && attempt > 0
    ensures base <= Exponential(base, maximum, attempt) <= maximum
  {
    Power2Monotone(0, attempt - 1);
    TimesMonotone(base, 1, Power2(attempt - 1));
  }

  /** The settlement of a failed last attempt. */
  function LastRetry(cfg: WorkerConfig): Settlement
  {
    Settlement(RetryOutcome, 0, DeliverOutcome(NetworkFailure, cfg.maximum).errorCode, None, cfg.base / 2)
  }

  /** The worker accepts a base delay of one nanosecond, and exactly then its last retry is refused. */
  lemma LastRetryIsValid(cfg: WorkerConfig)
    requires ValidWorkerConfig(cfg)
    ensures ValidSettlement(LastRetry(cfg)) <==> cfg.base >= 2
  {
  }

  /** A valid settlement without an absolute retry time is always taken from the owner of the lease. */
  lemma WorkerSettlementIsTaken(rows: Rows, c: Claim, s: Settlement, now: Time, maxAttempts: nat)
    requires ValidSettlement(s) && s.retryAt == None && c.attemptCount > 0 && Owns(rows, c, now)
    ensures SettleWebhook(rows, c, s, now, maxAttempts).1 == Settled
  {
  }
}
