/** The API-key health check: read the key file, ping the model once per
    key, classify each failure, and keep the usable keys. The ping is a
    parameter giving, for a key, either success (None) or the error it
    raised; the pauses between pings and the console output are left out. */
module KeyHealthCheck {
  import opened Wrappers
  import opened Text
  import opened Lists

  // ---------------------------------------------------------- key file

  /** The two ways `load_keys` exits. */
  datatype LoadError = KeyFileNotFound | NoKeysAfterFiltering

  /** `load_keys`: the file's trimmed non-blank, non-comment lines, in
      order; the file is None when it does not exist. */
  function LoadKeys(file: Option<seq<string>>): (r: Result<seq<string>, LoadError>)
    ensures file.None? ==> r == Failure(KeyFileNotFound)
    ensures file.Some? ==> (r == Failure(NoKeysAfterFiltering) <==> ContentLines(file.value) == [])
    ensures r.Success? ==> r.value == ContentLines(file.value) && r.value != []
  {
    match file
    case None => Failure(KeyFileNotFound)
    case Some(lines) =>
      var keys := ContentLines(lines);
      if keys == [] then Failure(NoKeysAfterFiltering) else Success(keys)
  }

  /** The `--max-keys` cap: zero or absent keeps every key, otherwise
      `keys[:max_keys]` (a negative cap drops keys from the end). */
  function CapKeys(keys: seq<string>, maxKeys: Option<int>): (r: seq<string>)
    ensures maxKeys.None? || maxKeys.value == 0 ==> r == keys
    ensures maxKeys.Some? && maxKeys.value > 0 ==>
              |r| == (if maxKeys.value < |keys| then maxKeys.value else |keys|) && r == keys[..|r|]
    ensures maxKeys.Some? && maxKeys.value < 0 ==>
              r == keys[..if |keys| + maxKeys.value >= 0 then |keys| + maxKeys.value else 0]
  {
    if maxKeys.None? || maxKeys.value == 0 then keys else PyPrefix(keys, maxKeys.value)
  }

  // ------------------------------------------------------------ errors

  /** Where an exception sits in the SDK's hierarchy: client and server
      errors are both API errors. */
  datatype ErrorClass = ClientError | ServerError | OtherApiError | NotApiError

  /** A raised exception: its `str()`, its class, and its `status_code`
      and `code` attributes (None when missing). */
  datatype Error = Error(message: string, cls: ErrorClass, statusCode: Option<int>, code: Option<int>)

  /** `getattr(err, "status_code", None) or getattr(err, "code", None)`:
      a missing or zero status code falls back to `code`. */
  function ErrorCode(e: Error): Option<int> {
    if e.statusCode.Some? && e.statusCode.value != 0 then e.statusCode else e.code
  }

  /** `is_rate_limit`. */
  predicate IsRateLimit(e: Error) {
    var msg := Lower(e.message);
    Contains(msg, "429") || Contains(msg, "resource_exhausted") || Contains(msg, "limit exceeded")
    || (e.cls != NotApiError && ErrorCode(e) == Some(429))
  }

  /** `is_auth_error`. */
  predicate IsAuthError(e: Error) {
    var msg := Lower(e.message);
    Contains(msg, "401") || Contains(msg, "403") || Contains(msg, "unauth") || Contains(msg, "permission")
    || (e.cls == ClientError && (ErrorCode(e) == Some(401) || ErrorCode(e) == Some(403)))
  }

  /** The message test works on the lower-cased text, so case does not
      matter, and an API error of code 429 is a rate limit whatever it says. */
  lemma RateLimitCases(e: Error)
    ensures IsRateLimit(e) == IsRateLimit(e.(message := Lower(e.message)))
    ensures e.cls != NotApiError && ErrorCode(e) == Some(429) ==> IsRateLimit(e)
    ensures e.cls == ClientError && ErrorCode(e) == Some(401) ==> IsAuthError(e)
    ensures e.cls == NotApiError && e.statusCode.None? ==>
              (IsRateLimit(e) <==> IsRateLimit(e.(code := None)))
  {
    LowerIdempotent(e.message);
  }

  lemma LowerIdempotent(s: string)
    ensures Lower(Lower(s)) == Lower(s)
  {
  }

  /** The classification of a ping. */
  datatype Reason = Ok | Unauthorized | RateLimited | Failed

  function ReasonText(r: Reason): string {
    match r
    case Ok => "ok"
    case Unauthorized => "unauthorized"
    case RateLimited => "rate_limited"
    case Failed => "error"
  }

  /** `ping_key`: success is "ok"; an error is "unauthorized" when it is an
      auth error, else "rate_limited" when it is a rate limit, else "error". */
  function PingKey(outcome: Option<Error>): (r: (bool, Reason))
    ensures r.0 <==> outcome.None?
    ensures r.1 == Ok <==> outcome.None?
    ensures outcome.Some? ==> (r.1 == Unauthorized <==> IsAuthError(outcome.value))
    ensures outcome.Some? ==> (r.1 == RateLimited <==> !IsAuthError(outcome.value) && IsRateLimit(outcome.value))
    ensures outcome.Some? ==> (r.1 == Failed <==> !IsAuthError(outcome.value) && !IsRateLimit(outcome.value))
  {
    match outcome
    case None => (true, Ok)
    case Some(e) =>
      if IsAuthError(e) then (false, Unauthorized)
      else if IsRateLimit(e) then (false, RateLimited)
      else (false, Failed)
  }

  // --------------------------------------------------------- good keys

  /** `write_good_keys`: the keys joined with newlines, with a trailing
      newline when there is at least one key. */
  function GoodKeysText(keys: seq<string>): string {
    Join(keys, "\n") + (if keys != [] then "\n" else "")
  }

  /** The file is empty exactly when there are no keys; otherwise it ends in
      a newline and, without it, splits back into the keys. */
  lemma GoodKeysRoundTrip(keys: seq<string>)
    requires forall i | 0 <= i < |keys| :: '\n' !in keys[i]
    ensures GoodKeysText(keys) == [] <==> keys == []
    ensures keys != [] ==> var t := GoodKeysText(keys);
      t[|t| - 1] == '\n' && Split(t[..|t| - 1], '\n') == keys
  {
    if keys != [] {
      var t := GoodKeysText(keys);
      assert t[..|t| - 1] == Join(keys, "\n");
      SplitJoin(keys, '\n');
    }
  }

  // ---------------------------------------------------------- the loop

  /** `KeyStatus`. */
  datatype KeyStatus = KeyStatus(key: string, ok: bool, reason: Reason)

  function StatusOf(key: string, outcome: Option<Error>): KeyStatus {
    KeyStatus(key, PingKey(outcome).0, PingKey(outcome).1)
  }

  /** One status per key, in order. */
  function Statuses(keys: seq<string>, ping: string -> Option<Error>): (r: seq<KeyStatus>)
    ensures |r| == |keys| && forall i | 0 <= i < |keys| :: r[i] == StatusOf(keys[i], ping(keys[i]))
  {
    seq(|keys|, i requires 0 <= i < |keys| => StatusOf(keys[i], ping(keys[i])))
  }

  /** What a key adds to `good`. */
  function KeepIfOk(ping: string -> Option<Error>): string -> seq<string> {
    key => if ping(key).None? then [key] else []
  }

  /** The usable keys, in input order. */
  function GoodKeys(keys: seq<string>, ping: string -> Option<Error>): seq<string> {
    Collect(keys, KeepIfOk(ping))
  }

  /** `sum(1 for s in statuses if s.ok)`. */
  function CountOk(statuses: seq<KeyStatus>): (n: nat)
    ensures n <= |statuses|
  {
    if statuses == [] then 0 else CountOk(statuses[..|statuses| - 1]) + (if statuses[|statuses| - 1].ok then 1 else 0)
  }

  /** `sum(1 for s in statuses if s.reason == reason)`. */
  function CountReason(statuses: seq<KeyStatus>, reason: Reason): (n: nat)
    ensures n <= |statuses|
  {
    if statuses == [] then 0
    else CountReason(statuses[..|statuses| - 1], reason) + (if statuses[|statuses| - 1].reason == reason then 1 else 0)
  }

  /** `good` holds exactly the keys whose ping succeeded, in order, and they
      are as many as the ok statuses. */
  lemma GoodKeysCounted(keys: seq<string>, ping: string -> Option<Error>)
    ensures |GoodKeys(keys, ping)| == CountOk(Statuses(keys, ping))
    ensures forall k :: k in GoodKeys(keys, ping) <==> k in keys && ping(k).None?
  {
    GoodKeysCount(keys, ping);
    forall k ensures k in GoodKeys(keys, ping) <==> k in keys && ping(k).None? {
      GoodKeyMember(keys, ping, k);
    }
  }

  lemma {:induction false} GoodKeysCount(keys: seq<string>, ping: string -> Option<Error>)
    ensures |GoodKeys(keys, ping)| == CountOk(Statuses(keys, ping))
  {
    if keys != [] {
      var init := keys[..|keys| - 1];
      GoodKeysCount(init, ping);
      assert Statuses(keys, ping)[..|keys| - 1] == Statuses(init, ping);
      assert GoodKeys(keys, ping) == GoodKeys(init, ping) + KeepIfOk(ping)(keys[|keys| - 1]);
    }
  }

  lemma GoodKeyMember(keys: seq<string>, ping: string -> Option<Error>, k: string)
    ensures k in GoodKeys(keys, ping) <==> k in keys && ping(k).None?
  {
    CollectMembers(keys, KeepIfOk(ping), k);
    if k in keys && ping(k).None? {
      var i :| 0 <= i < |keys| && keys[i] == k;
      assert k in KeepIfOk(ping)(keys[i]);
    }
  }

  /** The summary: `ok_count`, `fail_count` and `unauth_count`. */
  datatype Summary = Summary(okCount: nat, failCount: nat, unauthCount: nat)

  function Summarize(statuses: seq<KeyStatus>): (s: Summary)
    ensures s.okCount + s.failCount == |statuses|
  {
    Summary(CountOk(statuses), |statuses| - CountOk(statuses), CountReason(statuses, Unauthorized))
  }

  predicate Classified(statuses: seq<KeyStatus>) {
    forall i | 0 <= i < |statuses| :: statuses[i].ok <==> statuses[i].reason == Ok
  }

  /** An unauthorized key is never usable, so the unauthorized are among the failures. */
  lemma {:induction false} UnauthorizedNotOk(statuses: seq<KeyStatus>)
    ensures Classified(statuses) ==> CountReason(statuses, Unauthorized) <= |statuses| - CountOk(statuses)
  {
    if statuses != [] && Classified(statuses) {
      var init := statuses[..|statuses| - 1];
      assert Classified(init);
      UnauthorizedNotOk(init);
    }
  }

  /** For the statuses of a run: the usable count is the number of good
      keys, and every unauthorized key is counted among the failures. */
  lemma SummaryOfRun(keys: seq<string>, ping: string -> Option<Error>)
    ensures var s := Summarize(Statuses(keys, ping));
      && s.okCount == |GoodKeys(keys, ping)|
      && s.okCount + s.failCount == |keys|
      && s.unauthCount <= s.failCount
  {
    GoodKeysCounted(keys, ping);
    UnauthorizedNotOk(Statuses(keys, ping));
  }

  lemma StatusesStep(keys: seq<string>, ping: string -> Option<Error>, i: nat)
    requires i < |keys|
    ensures Statuses(keys[..i + 1], ping) == Statuses(keys[..i], ping) + [StatusOf(keys[i], ping(keys[i]))]
  {
    var a, b := Statuses(keys[..i + 1], ping), Statuses(keys[..i], ping) + [StatusOf(keys[i], ping(keys[i]))];
    forall k | 0 <= k < |a| ensures a[k] == b[k] {
      assert keys[..i + 1][k] == keys[k];
      if k < i {
        assert keys[..i][k] == keys[k];
      }
    }
  }

  /** The loop of `main`: ping each key in order, record its status and
      keep it when it is usable. */
  method TestKeys(keys: seq<string>, ping: string -> Option<Error>) returns (good: seq<string>, statuses: seq<KeyStatus>)
    ensures good == GoodKeys(keys, ping) && statuses == Statuses(keys, ping)
  {
    good, statuses := [], [];
    var i := 0;
    while i < |keys|
      invariant 0 <= i <= |keys|
      invariant good == GoodKeys(keys[..i], ping)
      invariant statuses == Statuses(keys[..i], ping)
    {
      var key := keys[i];
      var (ok, reason) := PingKey(ping(key));
      statuses := statuses + [KeyStatus(key, ok, reason)];
      StatusesStep(keys, ping, i);
      CollectStep(keys, KeepIfOk(ping), i);
      assert KeepIfOk(ping)(key) == if ok then [key] else [];
      if ok {
        good := good + [key];
      }
      i := i + 1;
    }
    assert keys[..i] == keys;
  }

  /** `main`: the key list after the cap, the good-keys file and the summary. */
  method HealthCheck(file: Option<seq<string>>, maxKeys: Option<int>, ping: string -> Option<Error>)
    returns (r: Result<(string, Summary), LoadError>)
    ensures r.Failure? <==> LoadKeys(file).Failure?
    ensures r.Failure? ==> r.error == LoadKeys(file).error
    ensures r.Success? ==>
      var keys := CapKeys(LoadKeys(file).value, maxKeys);
      r.value == (GoodKeysText(GoodKeys(keys, ping)), Summarize(Statuses(keys, ping)))
  {
    var loaded := LoadKeys(file);
    if loaded.Failure? {
      return Failure(loaded.error);
    }
    var keys := CapKeys(loaded.value, maxKeys);
    var good, statuses := TestKeys(keys, ping);
    return Success((GoodKeysText(good), Summarize(statuses)));
  }
}
