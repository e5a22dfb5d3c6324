/** `StickyKeyRotator`: the OCR script's API-key rotation. A key is kept for
    a number of finished calls, then the next usable key in cyclic order
    takes over; a banned key is never handed out again and a cooling key
    (after a 429) is skipped while another is ready. The clock is the
    parameter `now` of the operations that read it. */
module OcrKeyRotator {
  import opened Wrappers
  import UrlManager

  /** `RuntimeError("No usable API keys (all dead).")`. */
  datatype RotatorError = AllKeysDead

  /** `cool_until.get(k, 0.0)`. */
  function CoolUntil(coolUntil: map<string, real>, k: string): real {
    if k in coolUntil then coolUntil[k] else 0.0
  }

  /** The key may be used now: not banned and not cooling down. */
  predicate Ready(k: string, dead: set<string>, coolUntil: map<string, real>, now: real) {
    k !in dead && now >= CoolUntil(coolUntil, k)
  }

  /** `(i + step) % n`, the position the search looks at on step `step`. */
  function Slot(i: nat, step: nat, n: nat): nat
    requires n > 0
  {
    (i + step) % n
  }

  /** The first position, from step `step` of the cyclic search that starts
      at `i`, whose key is ready. */
  function FirstReady(keys: seq<string>, dead: set<string>, coolUntil: map<string, real>, now: real, i: nat, step: nat): (r: Option<nat>)
    requires |keys| > 0
    ensures r.Some? ==> r.value < |keys| && Ready(keys[r.value], dead, coolUntil, now)
    decreases |keys| - step
  {
    if step >= |keys| then None
    else if Ready(keys[Slot(i, step, |keys|)], dead, coolUntil, now) then Some(Slot(i, step, |keys|))
    else FirstReady(keys, dead, coolUntil, now, i, step + 1)
  }

  /** `[k for k in keys if k not in dead]`. */
  function LiveKeys(keys: seq<string>, dead: set<string>): (live: seq<string>)
    ensures forall k :: k in live <==> k in keys && k !in dead
  {
    if keys == [] then []
    else
      var init := LiveKeys(keys[..|keys| - 1], dead);
      var last := keys[|keys| - 1];
      assert keys == keys[..|keys| - 1] + [last];
      if last in dead then init else init + [last]
  }

  /** `max(0.0, cool_until.get(k, 0.0) - now)`: how long the key still cools. */
  function Wait(coolUntil: map<string, real>, now: real, k: string): real {
    var w := CoolUntil(coolUntil, k) - now;
    if w > 0.0 then w else 0.0
  }

  /** `min(live, key=wait)`: the first of the keys with the shortest wait. */
  function Soonest(live: seq<string>, coolUntil: map<string, real>, now: real): (r: string)
    requires live != []
    ensures r in live
    ensures forall k | k in live :: Wait(coolUntil, now, r) <= Wait(coolUntil, now, k)
  {
    if |live| == 1 then live[0]
    else
      var init := live[..|live| - 1];
      var m := Soonest(init, coolUntil, now);
      var last := live[|live| - 1];
      assert live == init + [last];
      if Wait(coolUntil, now, last) < Wait(coolUntil, now, m) then last else m
  }

  /** Of several keys with the shortest wait, `min` keeps the first: every
      key before the chosen one waits strictly longer. */
  lemma {:induction false} SoonestIsFirst(live: seq<string>, coolUntil: map<string, real>, now: real)
    requires live != []
    ensures exists k | 0 <= k < |live| :: (live[k] == Soonest(live, coolUntil, now)
      && forall j | 0 <= j < k :: Wait(coolUntil, now, live[j]) > Wait(coolUntil, now, Soonest(live, coolUntil, now)))
  {
    if |live| == 1 {
      assert live[0] == Soonest(live, coolUntil, now);
    } else {
      var init := live[..|live| - 1];
      var last := live[|live| - 1];
      var m := Soonest(init, coolUntil, now);
      SoonestIsFirst(init, coolUntil, now);
      var k :| 0 <= k < |init| && init[k] == m
        && forall j | 0 <= j < k :: Wait(coolUntil, now, init[j]) > Wait(coolUntil, now, m);
      if Wait(coolUntil, now, last) < Wait(coolUntil, now, m) {
        var r := Soonest(live, coolUntil, now);
        assert r == last;
        forall j | 0 <= j < |live| - 1 ensures Wait(coolUntil, now, live[j]) > Wait(coolUntil, now, r) {
          assert live[j] == init[j] && live[j] in init;
        }
        assert live[|live| - 1] == r;
      } else {
        assert Soonest(live, coolUntil, now) == m;
        assert live[k] == init[k];
        forall j | 0 <= j < k ensures Wait(coolUntil, now, live[j]) > Wait(coolUntil, now, m) {
          assert live[j] == init[j];
        }
      }
    }
  }

  /** `keys.index(k)`: the first position of `k`. */
  function IndexOf(keys: seq<string>, k: string): (r: nat)
    requires k in keys
    ensures r < |keys| && keys[r] == k && forall j | 0 <= j < r :: keys[j] != k
  {
    if keys[0] == k then 0 else 1 + IndexOf(keys[1..], k)
  }

  /** `_next_live_key_index`: the first ready key of the cyclic search from
      the cursor; when none is ready, the first position of the first live
      key with the shortest wait; an error when every key is banned. */
  function NextLiveIndex(keys: seq<string>, dead: set<string>, coolUntil: map<string, real>, now: real, i: nat): (r: Result<nat, RotatorError>)
    ensures r.Success? ==> r.value < |keys| && keys[r.value] !in dead
    ensures r.Failure? <==> forall k | k in keys :: k in dead
  {
    if |keys| > 0 && FirstReady(keys, dead, coolUntil, now, i, 0).Some? then
      Success(FirstReady(keys, dead, coolUntil, now, i, 0).value)
    else
      var live := LiveKeys(keys, dead);
      if live == [] then Failure(AllKeysDead)
      else Success(IndexOf(keys, Soonest(live, coolUntil, now)))
  }

  /** The search finds the first ready key in cyclic order from its step:
      the keys it passes over are not ready, and `None` means that no key
      at the remaining steps is. */
  lemma {:induction false} FirstReadyIsFirst(keys: seq<string>, dead: set<string>, coolUntil: map<string, real>, now: real, i: nat, step: nat)
    requires |keys| > 0
    ensures FirstReady(keys, dead, coolUntil, now, i, step).Some? ==>
      exists s | step <= s < |keys| :: FirstReady(keys, dead, coolUntil, now, i, step).value == Slot(i, s, |keys|)
        && forall s' | step <= s' < s :: !Ready(keys[Slot(i, s', |keys|)], dead, coolUntil, now)
    ensures FirstReady(keys, dead, coolUntil, now, i, step).None? ==>
      forall s | step <= s < |keys| :: !Ready(keys[Slot(i, s, |keys|)], dead, coolUntil, now)
    decreases |keys| - step
  {
    if step < |keys| && !Ready(keys[Slot(i, step, |keys|)], dead, coolUntil, now) {
      FirstReadyIsFirst(keys, dead, coolUntil, now, i, step + 1);
      if FirstReady(keys, dead, coolUntil, now, i, step).Some? {
        var s :| step + 1 <= s < |keys| && FirstReady(keys, dead, coolUntil, now, i, step).value == Slot(i, s, |keys|)
          && forall s' | step + 1 <= s' < s :: !Ready(keys[Slot(i, s', |keys|)], dead, coolUntil, now);
        assert forall s' | step <= s' < s :: !Ready(keys[Slot(i, s', |keys|)], dead, coolUntil, now);
      }
    }
  }

  /** The cyclic search looks at every position: when some key is ready,
      it finds one. */
  lemma SearchFindsReady(keys: seq<string>, dead: set<string>, coolUntil: map<string, real>, now: real, i: nat, j: nat)
    requires j < |keys| && Ready(keys[j], dead, coolUntil, now)
    ensures FirstReady(keys, dead, coolUntil, now, i, 0).Some?
  {
    var n := |keys|;
    var s := (j - i) % n;
    UrlManager.ModShift(i, s, j, n);
    assert Slot(i, s, n) == j;
    FirstReadyIsFirst(keys, dead, coolUntil, now, i, 0);
  }

  /** A ready key is preferred: when one exists, the result is the first
      ready key in cyclic order from the cursor. */
  lemma NextLivePrefersReady(keys: seq<string>, dead: set<string>, coolUntil: map<string, real>, now: real, i: nat, j: nat)
    requires j < |keys| && Ready(keys[j], dead, coolUntil, now)
    ensures NextLiveIndex(keys, dead, coolUntil, now, i).Success?
    ensures Ready(keys[NextLiveIndex(keys, dead, coolUntil, now, i).value], dead, coolUntil, now)
    ensures exists s | 0 <= s < |keys| :: (NextLiveIndex(keys, dead, coolUntil, now, i).value == Slot(i, s, |keys|)
      && forall s' | 0 <= s' < s :: !Ready(keys[Slot(i, s', |keys|)], dead, coolUntil, now))
  {
    SearchFindsReady(keys, dead, coolUntil, now, i, j);
    FirstReadyIsFirst(keys, dead, coolUntil, now, i, 0);
  }

  /** When no key is ready but some are not banned, the result is the first
      position of a live key whose wait is the shortest of all live keys. */
  lemma NextLiveFallsBackToSoonest(keys: seq<string>, dead: set<string>, coolUntil: map<string, real>, now: real, i: nat)
    requires forall j | 0 <= j < |keys| :: !Ready(keys[j], dead, coolUntil, now)
    requires exists j | 0 <= j < |keys| :: keys[j] !in dead
    ensures NextLiveIndex(keys, dead, coolUntil, now, i).Success?
    ensures forall k | k in keys && k !in dead ::
      Wait(coolUntil, now, keys[NextLiveIndex(keys, dead, coolUntil, now, i).value]) <= Wait(coolUntil, now, k)
    ensures forall j | 0 <= j < NextLiveIndex(keys, dead, coolUntil, now, i).value ::
      keys[j] != keys[NextLiveIndex(keys, dead, coolUntil, now, i).value]
  {
    var j :| 0 <= j < |keys| && keys[j] !in dead;
    assert keys[j] in LiveKeys(keys, dead);
    assert FirstReady(keys, dead, coolUntil, now, i, 0).None?;
  }

  class StickyKeyRotator {
    var keys: seq<string>
    var callsPerKey: int
    var cooldown: real
    var coolUntil: map<string, real>
    var dead: set<string>
    var usageCalls: map<string, int>
    /** `_i`, the position of the current key. */
    var cursor: nat
    var current: Option<string>
    var remaining: int

    ghost predicate Valid()
      reads this
    {
      callsPerKey >= 1 && (current.Some? ==> current.value in keys)
    }

    /** A rotator over the keys in their order; at least one call per key. */
    constructor (keys0: seq<string>, callsPerKey0: int, cooldown0: real)
      ensures Valid()
      ensures keys == keys0 && callsPerKey == (if callsPerKey0 < 1 then 1 else callsPerKey0) && cooldown == cooldown0
      ensures coolUntil == (map k | k in keys0 :: 0.0) && dead == {} && usageCalls == (map k | k in keys0 :: 0)
      ensures cursor == 0 && current == None && remaining == callsPerKey
    {
      keys := keys0;
      callsPerKey := if callsPerKey0 < 1 then 1 else callsPerKey0;
      cooldown := cooldown0;
      coolUntil := map k | k in keys0 :: 0.0;
      dead := {};
      usageCalls := map k | k in keys0 :: 0;
      cursor := 0;
      current := None;
      remaining := if callsPerKey0 < 1 then 1 else callsPerKey0;
    }

    /** The current key has to be replaced: there is none yet, its calls are
        used up, or it is banned or cooling down. */
    predicate NeedsSwitch(now: real)
      reads this
    {
      current.None? || remaining <= 0 || current.value in dead || now < CoolUntil(coolUntil, current.value)
    }

    /** `_next_live_key_index`, with its loop over the steps. */
    method NextLiveKeyIndex(now: real) returns (r: Result<nat, RotatorError>)
      ensures r == NextLiveIndex(keys, dead, coolUntil, now, cursor)
    {
      var n := |keys|;
      var step := 0;
      while step < n
        invariant 0 <= step <= n
        invariant n > 0 ==> FirstReady(keys, dead, coolUntil, now, cursor, step) == FirstReady(keys, dead, coolUntil, now, cursor, 0)
      {
        var j := (cursor + step) % n;
        var k := keys[j];
        if k in dead {
          step := step + 1;
          continue;
        }
        if now < CoolUntil(coolUntil, k) {
          step := step + 1;
          continue;
        }
        return Success(j);
      }
      var live := LiveKeys(keys, dead);
      if live == [] {
        return Failure(AllKeysDead);
      }
      var soonest := Soonest(live, coolUntil, now);
      return Success(IndexOf(keys, soonest));
    }

    /** `current_key`: the current key while it needs no switch; otherwise
        the next live key, which becomes current with a fresh allowance of
        calls. The key returned is never banned, and the call fails exactly
        when every key is. */
    method CurrentKey(now: real) returns (k: Result<string, RotatorError>)
      requires Valid()
      modifies this
      ensures Valid()
      ensures keys == old(keys) && callsPerKey == old(callsPerKey) && cooldown == old(cooldown)
      ensures coolUntil == old(coolUntil) && dead == old(dead) && usageCalls == old(usageCalls)
      ensures !old(NeedsSwitch(now)) ==> (k == Success(old(current).value)
        && cursor == old(cursor) && current == old(current) && remaining == old(remaining))
      ensures old(NeedsSwitch(now)) && NextLiveIndex(keys, dead, coolUntil, now, old(cursor)).Failure? ==>
        (k == Failure(AllKeysDead) && cursor == old(cursor) && current == old(current) && remaining == old(remaining))
      ensures old(NeedsSwitch(now)) && NextLiveIndex(keys, dead, coolUntil, now, old(cursor)).Success? ==>
        cursor == NextLiveIndex(keys, dead, coolUntil, now, old(cursor)).value && cursor < |keys|
        && current == Some(keys[cursor]) && remaining == callsPerKey && k == Success(keys[cursor])
      ensures k.Success? ==> k.value !in dead && current == Some(k.value)
      ensures k.Failure? <==> forall x | x in keys :: x in dead
    {
      if current.None? || remaining <= 0 || current.value in dead || now < CoolUntil(coolUntil, current.value) {
        var r := NextLiveKeyIndex(now);
        if r.Failure? {
          return Failure(r.error);
        }
        cursor := r.value;
        current := Some(keys[cursor]);
        remaining := callsPerKey;
      }
      return Success(current.value);
    }

    /** `on_call_finished`: a finished call is counted for the current key
        (when there is a non-empty one) and used from its allowance. */
    method OnCallFinished()
      modifies this
      ensures keys == old(keys) && callsPerKey == old(callsPerKey) && cooldown == old(cooldown)
      ensures coolUntil == old(coolUntil) && dead == old(dead) && cursor == old(cursor) && current == old(current)
      ensures old(current).Some? && old(current).value != [] ==>
        (usageCalls == old(usageCalls)[old(current).value := Count(old(usageCalls), old(current).value) + 1]
        && remaining == old(remaining) - 1)
      ensures !(old(current).Some? && old(current).value != []) ==> usageCalls == old(usageCalls) && remaining == old(remaining)
    {
      if current.Some? && current.value != [] {
        usageCalls := usageCalls[current.value := Count(usageCalls, current.value) + 1];
        remaining := remaining - 1;
      }
    }

    /** `mark_429`: the key cools down for `cooldown` seconds from now. */
    method Mark429(k: string, now: real)
      modifies this
      ensures coolUntil == old(coolUntil)[k := now + cooldown]
      ensures keys == old(keys) && callsPerKey == old(callsPerKey) && cooldown == old(cooldown) && dead == old(dead)
      ensures usageCalls == old(usageCalls) && cursor == old(cursor) && current == old(current) && remaining == old(remaining)
    {
      coolUntil := coolUntil[k := now + cooldown];
    }

    /** `ban`: the key is never handed out again. */
    method Ban(k: string)
      modifies this
      ensures dead == old(dead) + {k}
      ensures keys == old(keys) && callsPerKey == old(callsPerKey) && cooldown == old(cooldown) && coolUntil == old(coolUntil)
      ensures usageCalls == old(usageCalls) && cursor == old(cursor) && current == old(current) && remaining == old(remaining)
    {
      dead := dead + {k};
    }
  }

  /** `usage_calls.get(k, 0)`. */
  function Count(usage: map<string, int>, k: string): int {
    if k in usage then usage[k] else 0
  }
}
