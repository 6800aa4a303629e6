/** Signed requests: the timestamp tolerance and the nonce memory that together keep any request from
    being accepted twice. */
module NonceReplay {
  import opened Wire
  import opened Workflows

  // ---------------------------------------------------------------------------------------------
  // One request

  /** Instants count ticks, `unit` of them a second; tolerance and retention are in seconds. */
  datatype Window = Window(unit: nat, tolerance: nat, retention: nat)
  {
    predicate Valid() { 1 <= unit }

    function Retention(): nat { retention * unit }

    /** The largest distance between clock and timestamp that passes: ages are cut to whole seconds. */
    function Radius(): int { (tolerance + 1) * unit - 1 }
  }

  const SIGNATURE_TOLERANCE_SECONDS: nat := 300
  const NONCE_RETENTION_SECONDS: nat := SIGNATURE_TOLERANCE_SECONDS * 2
  const MAX_NONCE_BYTES: nat := 128

  /** A request with its headers read; `timestamp` is absent when it does not parse. The content digest
      and the signature are judged outside. */
  datatype Request = Request(
    keyId: string, timestamp: Option<Time>, nonce: string, contentMatches: bool, signatureValid: bool)

  datatype Rejection = InvalidKeyId | InvalidTimestamp | InvalidNonce | Replay | ContentShaMismatch | InvalidSignature

  type SeenNonces = map<string, Time>

  function ReplayKey(keyId: string, nonce: string): string {
    keyId + ":" + nonce
  }

  function Abs(n: int): nat {
    if n < 0 then -n else n
  }

  function Quotient(n: nat, d: nat): nat
    requires 1 <= d
  {
    n / d
  }

  /** Whole seconds of a span, cut toward zero. */
  function WholeSeconds(span: int, unit: nat): int
    requires 1 <= unit
  {
    if span < 0 then 0 - Quotient(-span, unit) else Quotient(span, unit)
  }

  predicate TimestampOk(w: Window, timestamp: Time, now: Time)
    requires w.Valid()
  {
    Abs(WholeSeconds(now - timestamp, w.unit)) <= w.tolerance
  }

  predicate NonceOk(nonce: string) {
    !Blank(nonce) && |nonce| <= MAX_NONCE_BYTES
  }

  function Retained(w: Window, seen: SeenNonces, now: Time): SeenNonces {
    map k | k in seen && now - w.Retention() <= seen[k] :: seen[k]
  }

  /** The clock is read twice: for the timestamp and, later, for the nonce. */
  datatype Call = Call(request: Request, timeChecked: Time, nonceChecked: Time)

  /** The request gets as far as the nonce memory. */
  predicate ReachesMemory(w: Window, keys: set<string>, c: Call)
    requires w.Valid()
  {
    && c.request.keyId in keys
    && c.request.timestamp.Some? && TimestampOk(w, c.request.timestamp.value, c.timeChecked)
    && NonceOk(c.request.nonce)
  }

  predicate Remembered(w: Window, seen: SeenNonces, c: Call) {
    ReplayKey(c.request.keyId, c.request.nonce) in Retained(w, seen, c.nonceChecked)
  }

  predicate Accepts(w: Window, keys: set<string>, seen: SeenNonces, c: Call)
    requires w.Valid()
  {
    ReachesMemory(w, keys, c) && !Remembered(w, seen, c) && c.request.contentMatches && c.request.signatureValid
  }

  function Next(w: Window, keys: set<string>, seen: SeenNonces, c: Call): SeenNonces
    requires w.Valid()
  {
    if !ReachesMemory(w, keys, c) then seen
    else
      var kept := Retained(w, seen, c.nonceChecked);
      if Remembered(w, seen, c) then kept
      else kept[ReplayKey(c.request.keyId, c.request.nonce) := c.nonceChecked]
  }

  class AuthStore {
    const window: Window
    const keys: set<string>
    var seen: SeenNonces

    constructor (window: Window, keys: set<string>)
      ensures this.window == window && this.keys == keys && seen == map[]
    {
      this.window, this.keys, this.seen := window, keys, map[];
    }

    /** Forgets what is too old, then looks the nonce up and remembers it. */
    method VerifyNonce(keyId: string, nonce: string, now: Time) returns (r: Result<(), Rejection>)
      modifies this
      ensures r == if !NonceOk(nonce) then Err(InvalidNonce)
                   else if ReplayKey(keyId, nonce) in Retained(window, old(seen), now) then Err(Replay)
                   else Ok(())
      ensures seen == if !NonceOk(nonce) then old(seen)
                      else if r.Err? then Retained(window, old(seen), now)
                      else Retained(window, old(seen), now)[ReplayKey(keyId, nonce) := now]
    {
      if !NonceOk(nonce) {
        return Err(InvalidNonce);
      }
      var cutoff := now - window.Retention();
      var entries := seen.Keys;
      while entries != {}
        invariant entries <= old(seen).Keys
        invariant seen == map k | k in old(seen) && (k in entries || cutoff <= old(seen)[k]) :: old(seen)[k]
        decreases |entries|
      {
        var k :| k in entries;
        if seen[k] < cutoff {
          seen := seen - {k};
        }
        entries := entries - {k};
      }
      assert seen == Retained(window, old(seen), now);
      if ReplayKey(keyId, nonce) in seen {
        return Err(Replay);
      }
      seen := seen[ReplayKey(keyId, nonce) := now];
      r := Ok(());
    }

    /** The nonce is spent as soon as it is looked up, whatever the content and signature turn out to be. */
    method VerifyRequest(c: Call) returns (r: Result<(), Rejection>)
      requires window.Valid()
      modifies this
      ensures r.Ok? <==> Accepts(window, keys, old(seen), c)
      ensures r.Ok? <==>
                && c.request.keyId in keys && c.request.timestamp.Some?
                && -window.Radius() <= c.timeChecked - c.request.timestamp.value <= window.Radius()
                && !Blank(c.request.nonce) && |c.request.nonce| <= 128
                && (var k := c.request.keyId + ":" + c.request.nonce;
                    k in old(seen) ==> old(seen)[k] < c.nonceChecked - window.Retention())
                && c.request.contentMatches && c.request.signatureValid
      ensures r.Err? ==>
                match r.error
                case InvalidKeyId => c.request.keyId !in keys
                case InvalidTimestamp =>
                  c.request.timestamp.Some? ==> !TimestampOk(window, c.request.timestamp.value, c.timeChecked)
                case InvalidNonce => Blank(c.request.nonce) || 128 < |c.request.nonce|
                case Replay => c.request.keyId + ":" + c.request.nonce in old(seen)
                case ContentShaMismatch => !c.request.contentMatches
                case InvalidSignature => !c.request.signatureValid
      ensures r == Err(Replay) <==> ReachesMemory(window, keys, c) && Remembered(window, old(seen), c)
      ensures seen == Next(window, keys, old(seen), c)
    {
      AcceptsExactlyWhen(window, keys, seen, c);
      NonceLimits(c.request);
      hide Retained, NonceOk, ReplayKey, TimestampOk, Blank, Window.Radius, Window.Retention;
      if c.request.keyId !in keys {
        return Err(InvalidKeyId);
      }
      if c.request.timestamp == None || !TimestampOk(window, c.request.timestamp.value, c.timeChecked) {
        return Err(InvalidTimestamp);
      }
      var checked := VerifyNonce(c.request.keyId, c.request.nonce, c.nonceChecked);
      if checked.Err? {
        return checked;
      }
      if !c.request.contentMatches {
        return Err(ContentShaMismatch);
      }
      if !c.request.signatureValid {
        return Err(InvalidSignature);
      }
      r := Ok(());
    }
  }

  /** Acceptance in plain terms: a known key, a readable timestamp within the tolerance, a nonce that is
      neither blank nor too long and was not used under this key within the retention, the right content
      and a valid signature. */
  lemma AcceptsExactlyWhen(w: Window, keys: set<string>, seen: SeenNonces, c: Call)
    requires w.Valid()
    ensures Accepts(w, keys, seen, c) <==>
              && c.request.keyId in keys && c.request.timestamp.Some?
              && -w.Radius() <= c.timeChecked - c.request.timestamp.value <= w.Radius()
              && !Blank(c.request.nonce) && |c.request.nonce| <= 128
              && (var k := c.request.keyId + ":" + c.request.nonce;
                  k in seen ==> seen[k] < c.nonceChecked - w.Retention())
              && c.request.contentMatches && c.request.signatureValid
  {
    hide TimestampOk, Blank, Window.Radius, Window.Retention;
    if c.request.timestamp.Some? {
      ToleranceIsRadius(w, c.request.timestamp.value, c.timeChecked);
    }
  }

  lemma NonceLimits(request: Request)
    ensures NonceOk(request.nonce) <==> !Blank(request.nonce) && |request.nonce| <= 128
    ensures ReplayKey(request.keyId, request.nonce) == request.keyId + ":" + request.nonce
  {
    hide Blank;
  }

  // ---------------------------------------------------------------------------------------------
  // Histories

  function SeenAfter(w: Window, keys: set<string>, calls: seq<Call>): SeenNonces
    requires w.Valid()
  {
    if calls == [] then map[]
    else Next(w, keys, SeenAfter(w, keys, calls[..|calls| - 1]), calls[|calls| - 1])
  }

  predicate Accepted(w: Window, keys: set<string>, calls: seq<Call>, i: nat)
    requires w.Valid() && i < |calls|
  {
    Accepts(w, keys, SeenAfter(w, keys, calls[..i]), calls[i])
  }

  /** Calls in the order they reach the memory: the clock readings they bring never go back, although each
      is taken before the memory is locked, and each lies at most `delay` after the reading its timestamp
      was checked at. */
  predicate Orderly(calls: seq<Call>, delay: nat) {
    && (forall i :: 0 <= i < |calls| ==> calls[i].timeChecked <= calls[i].nonceChecked <= calls[i].timeChecked + delay)
    && (forall i, j :: 0 <= i < j < |calls| ==> calls[i].nonceChecked <= calls[j].nonceChecked)
  }

  predicate SameRequest(a: Request, b: Request) {
    a.keyId == b.keyId && a.nonce == b.nonce && a.timestamp == b.timestamp
  }

  /** No history accepts a key, nonce and timestamp twice. */
  ghost predicate ReplaySafe(w: Window, keys: set<string>, delay: nat)
    requires w.Valid()
  {
    forall calls: seq<Call>, i, j ::
      Orderly(calls, delay) && 0 <= i < j < |calls| && SameRequest(calls[i].request, calls[j].request) ==>
        !(Accepted(w, keys, calls, i) && Accepted(w, keys, calls, j))
  }

  lemma ToleranceIsRadius(w: Window, timestamp: Time, now: Time)
    requires w.Valid()
    ensures TimestampOk(w, timestamp, now) <==> -w.Radius() <= now - timestamp <= w.Radius()
  {
    hide Quotient;
    var span := Abs(now - timestamp);
    assert Abs(WholeSeconds(now - timestamp, w.unit)) == Quotient(span, w.unit);
    QuotientBound(span, w.unit, w.tolerance);
  }

  lemma QuotientRemainder(n: nat, d: nat)
    requires 1 <= d
    ensures Quotient(n, d) * d <= n < Quotient(n, d) * d + d
  {
    assert n == n / d * d + n % d;
  }

  lemma ProductGrows(a: nat, b: nat, d: nat)
    requires a <= b
    ensures a * d <= b * d
  {
  }

  lemma QuotientBound(n: nat, d: nat, bound: nat)
    requires 1 <= d
    ensures Quotient(n, d) <= bound <==> n <= (bound + 1) * d - 1
  {
    hide Quotient;
    var q := Quotient(n, d);
    QuotientRemainder(n, d);
    assert (bound + 1) * d == bound * d + d;
    if q <= bound {
      ProductGrows(q, bound, d);
    } else {
      ProductGrows(bound + 1, q, d);
    }
  }

  /** A nonce accepted at `i` stays remembered with its time until the retention has passed. */
  lemma {:induction false} NonceStaysRemembered(w: Window, keys: set<string>, calls: seq<Call>, delay: nat, i: nat, k: nat)
    requires w.Valid() && Orderly(calls, delay) && i < k <= |calls|
    requires ReachesMemory(w, keys, calls[i]) && !Remembered(w, SeenAfter(w, keys, calls[..i]), calls[i])
    requires calls[k - 1].nonceChecked - calls[i].nonceChecked <= w.Retention()
    ensures
      var key := ReplayKey(calls[i].request.keyId, calls[i].request.nonce);
      var seen := SeenAfter(w, keys, calls[..k]);
      key in seen && seen[key] == calls[i].nonceChecked
    decreases k
  {
    hide ReachesMemory, ReplayKey;
    assert calls[..k][..k - 1] == calls[..k - 1];
    if i < k - 1 {
      assert calls[k - 2].nonceChecked <= calls[k - 1].nonceChecked;
      NonceStaysRemembered(w, keys, calls, delay, i, k - 1);
    }
  }

  lemma EnoughRetentionIsSafe(w: Window, keys: set<string>, delay: nat, calls: seq<Call>, i: nat, j: nat)
    requires w.Valid() && 2 * w.Radius() + delay <= w.Retention()
    requires Orderly(calls, delay) && i < j < |calls| && SameRequest(calls[i].request, calls[j].request)
    requires Accepted(w, keys, calls, i)
    ensures !Accepted(w, keys, calls, j)
  {
    if ReachesMemory(w, keys, calls[j]) {
      var timestamp := calls[i].request.timestamp.value;
      ToleranceIsRadius(w, timestamp, calls[i].timeChecked);
      ToleranceIsRadius(w, timestamp, calls[j].timeChecked);
      assert calls[j].nonceChecked - calls[i].nonceChecked <= w.Retention();
      assert calls[j - 1].nonceChecked <= calls[j].nonceChecked;
      NonceStaysRemembered(w, keys, calls, delay, i, j);
      assert Remembered(w, SeenAfter(w, keys, calls[..j]), calls[j]);
    }
  }

  /** With any less, the request accepted at the first possible moment comes back at the last. */
  lemma LessRetentionIsNot(w: Window, keys: set<string>, delay: nat, keyId: string)
    requires w.Valid() && keyId in keys && w.Retention() < 2 * w.Radius() + delay
    ensures !ReplaySafe(w, keys, delay)
  {
    var r := w.Radius();
    var request := Request(keyId, Some(0), "n", true, true);
    var first, last := Call(request, -r, -r), Call(request, r, r + delay);
    var calls := [first, last];
    ToleranceIsRadius(w, 0, -r);
    ToleranceIsRadius(w, 0, r);
    assert 0 <= w.Radius() by { assert 0 <= w.tolerance * w.unit; }
    assert !Blank("n") by { assert !IsWhitespace("n"[0]); }
    var key := ReplayKey(keyId, "n");
    assert calls[..0] == [] && calls[..1] == [first] && [first][..0] == [];
    assert SeenAfter(w, keys, []) == map[];
    assert Accepted(w, keys, calls, 0);
    assert SeenAfter(w, keys, [first]) == map[key := -r];
    assert Accepted(w, keys, calls, 1);
    assert Orderly(calls, delay);
  }

  /** The retention a tolerance needs, exactly. */
  lemma ReplaySafeExactlyWhen(w: Window, keys: set<string>, delay: nat)
    requires w.Valid() && keys != {}
    ensures ReplaySafe(w, keys, delay) <==> 2 * w.Radius() + delay <= w.Retention()
  {
    if 2 * w.Radius() + delay <= w.Retention() {
      forall calls: seq<Call>, i, j
        | Orderly(calls, delay) && 0 <= i < j < |calls| && SameRequest(calls[i].request, calls[j].request)
        ensures !(Accepted(w, keys, calls, i) && Accepted(w, keys, calls, j))
      {
        if Accepted(w, keys, calls, i) {
          EnoughRetentionIsSafe(w, keys, delay, calls, i, j);
        }
      }
    } else {
      var keyId :| keyId in keys;
      LessRetentionIsNot(w, keys, delay, keyId);
    }
  }

  /** Twice the tolerance is enough on a clock of whole seconds read once a call, and on no other. */
  lemma WholeSecondsAreSafe(unit: nat, keys: set<string>, delay: nat)
    requires 1 <= unit && keys != {}
    ensures ReplaySafe(Window(unit, SIGNATURE_TOLERANCE_SECONDS, NONCE_RETENTION_SECONDS), keys, delay)
            <==> unit == 1 && delay == 0
  {
    ReplaySafeExactlyWhen(Window(unit, SIGNATURE_TOLERANCE_SECONDS, NONCE_RETENTION_SECONDS), keys, delay);
  }

  // ---------------------------------------------------------------------------------------------
  // No refusal without cause

  lemma ReplayKeysDiffer(keyId: string, nonce: string, keyId': string, nonce': string)
    requires ':' !in keyId && ':' !in keyId'
    requires ReplayKey(keyId, nonce) == ReplayKey(keyId', nonce')
    ensures keyId == keyId' && nonce == nonce'
  {
    var text := ReplayKey(keyId, nonce);
    assert text[|keyId|] == ':' && text[|keyId'|] == ':';
    forall k | 0 <= k < |keyId| ensures text[k] != ':' {
      assert text[k] == keyId[k] && keyId[k] in keyId;
    }
    forall k | 0 <= k < |keyId'| ensures text[k] != ':' {
      assert text[k] == keyId'[k] && keyId'[k] in keyId';
    }
    assert text[..|keyId|] == keyId && text[..|keyId'|] == keyId';
    assert text[|keyId| + 1..] == nonce && text[|keyId'| + 1..] == nonce';
  }

  /** Whatever the memory holds was put there by a call that passed every check up to it. */
  lemma {:induction false} MemoryHasSource(w: Window, keys: set<string>, calls: seq<Call>, key: string) returns (i: nat)
    requires w.Valid() && key in SeenAfter(w, keys, calls)
    ensures i < |calls| && ReachesMemory(w, keys, calls[i])
    ensures key == ReplayKey(calls[i].request.keyId, calls[i].request.nonce)
    ensures SeenAfter(w, keys, calls)[key] == calls[i].nonceChecked
  {
    hide ReachesMemory;
    var n := |calls| - 1;
    var before := SeenAfter(w, keys, calls[..n]);
    if key in before && SeenAfter(w, keys, calls)[key] == before[key] {
      i := MemoryHasSource(w, keys, calls[..n], key);
    } else {
      i := n;
    }
  }

  /** A request is refused as a replay only when the same key and nonce came through within the
      retention, provided no trusted key id contains a colon. */
  lemma ReplayHasCause(w: Window, keys: set<string>, calls: seq<Call>, j: nat)
    requires w.Valid() && j < |calls| && forall k :: k in keys ==> ':' !in k
    requires ReachesMemory(w, keys, calls[j]) && Remembered(w, SeenAfter(w, keys, calls[..j]), calls[j])
    ensures exists i :: 0 <= i < j
              && ReachesMemory(w, keys, calls[i])
              && calls[i].request.keyId == calls[j].request.keyId && calls[i].request.nonce == calls[j].request.nonce
              && calls[j].nonceChecked - calls[i].nonceChecked <= w.Retention()
  {
    var key := ReplayKey(calls[j].request.keyId, calls[j].request.nonce);
    var i := MemoryHasSource(w, keys, calls[..j], key);
    ReplayKeysDiffer(calls[i].request.keyId, calls[i].request.nonce, calls[j].request.keyId, calls[j].request.nonce);
    assert calls[..j][i] == calls[i];
  }
}
