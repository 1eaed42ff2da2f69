/** The Gemini helper's policies: which models to try and in what order, when to retry a
    generation call and how long to wait, and the message shown for an API error. The client
    library is an oracle: `build` constructs a model by name, `call` answers the n-th request. */
module Gemini {
  import opened Wrappers
  import opened Text

  /** A raised exception: its class name and `str(e)`. */
  datatype Failure = Failure(kind: string, message: string)

  const MissingKey := Failure("ValueError", "Gemini API key is required")
  /** `raise None`, which Python refuses with a TypeError. */
  const RaiseNone := Failure("TypeError", "exceptions must derive from BaseException")
  /** `time.sleep` of a negative length, which Python refuses with a ValueError. */
  const NegativeSleep := Failure("ValueError", "sleep length must be non-negative")

  const DefaultModels: seq<string> := ["models/gemini-2.5-flash", "models/gemini-flash-latest", "models/gemini-pro-latest"]
  /** The model built when there was nothing to try. */
  const LastResort := "models/gemini-2.5-flash"

  /** The names `create_gemini_model` tries: a non-empty name first, then the fallbacks, which
      default to the three free-tier models. */
  function TryOrder(modelName: Option<string>, fallbacks: Option<seq<string>>): (r: seq<string>)
    ensures var fb := fallbacks.GetOr(DefaultModels);
      if modelName.Some? && modelName.value != "" then r == [modelName.value] + fb else r == fb
  {
    var fb := fallbacks.GetOr(DefaultModels);
    if modelName.Some? && modelName.value != "" then [modelName.value] + fb else fb
  }

  /** Every name in `models[..n]` fails to build. */
  predicate AllFail<M(==)>(models: seq<string>, build: string -> Result<M, Failure>, n: int)
    requires 0 <= n <= |models|
  {
    forall j :: 0 <= j < n ==> build(models[j]).Err?
  }

  /** The first model that builds, or the last failure (None when there was nothing to try). */
  function FirstBuilt<M(==)>(models: seq<string>, build: string -> Result<M, Failure>): (r: Result<M, Option<Failure>>)
    ensures r.Ok? ==> exists i :: 0 <= i < |models| && build(models[i]) == Ok(r.value) && AllFail(models, build, i)
    ensures r.Err? ==> AllFail(models, build, |models|)
    ensures r.Err? ==> r.error == if models == [] then None else Some(build(models[|models| - 1]).error)
    decreases |models|
  {
    if models == [] then Err(None)
    else
      match build(models[0])
      case Ok(m) => (assert AllFail(models, build, 0); Ok(m))
      case Err(e) =>
        var rest := FirstBuilt(models[1..], build);
        if rest.Ok? then
          var i :| 0 <= i < |models[1..]| && build(models[1..][i]) == Ok(rest.value) && AllFail(models[1..], build, i);
          assert build(models[i + 1]) == Ok(rest.value) && AllFail(models, build, i + 1);
          rest
        else
          assert AllFail(models, build, |models|) by {
            forall j | 1 <= j < |models|
              ensures build(models[j]).Err?
            {
              assert models[j] == models[1..][j - 1];
            }
          }
          if models[1..] == [] then Err(Some(e)) else (assert models[|models| - 1] == models[1..][|models[1..]| - 1]; rest)
  }

  /** The model that the first buildable name gives is the one returned. */
  lemma FirstBuiltAt<M>(models: seq<string>, build: string -> Result<M, Failure>, i: nat)
    requires i < |models| && build(models[i]).Ok? && AllFail(models, build, i)
    ensures FirstBuilt(models, build) == Ok(build(models[i]).value)
  {
  }

  /** When every name fails, the search reports the last failure, or None for no names. */
  lemma AllFailBuilt<M>(models: seq<string>, build: string -> Result<M, Failure>)
    requires AllFail(models, build, |models|)
    ensures FirstBuilt(models, build) == Err(if models == [] then None else Some(build(models[|models| - 1]).error))
  {
  }

  /** `create_gemini_model`: an empty key is refused; otherwise the first name that builds wins,
      the last failure is raised when all fail, and an empty try list builds the last resort. */
  function CreateModel<M(==)>(apiKey: string, modelName: Option<string>, fallbacks: Option<seq<string>>,
                                build: string -> Result<M, Failure>): Result<M, Failure>
  {
    if apiKey == "" then Err(MissingKey)
    else
      match FirstBuilt(TryOrder(modelName, fallbacks), build)
      case Ok(m) => Ok(m)
      case Err(Some(e)) => Err(e)
      case Err(None) => build(LastResort)
  }

  /** Without a name or fallbacks, the three defaults are tried in order. */
  lemma DefaultTryOrder()
    ensures TryOrder(None, None) == DefaultModels
    ensures TryOrder(Some(""), None) == DefaultModels
  {
  }

  /** A named model is tried before every fallback, and wins when it builds. */
  lemma NamedModelFirst<M>(apiKey: string, name: string, fallbacks: Option<seq<string>>, build: string -> Result<M, Failure>)
    requires apiKey != "" && name != "" && build(name).Ok?
    ensures CreateModel(apiKey, Some(name), fallbacks, build) == build(name)
  {
    var order := TryOrder(Some(name), fallbacks);
    assert order[0] == name;
    FirstBuiltAt(order, build, 0);
  }

  /** When every name fails, the failure of the last one tried is raised. */
  lemma AllFailRaisesLast<M>(apiKey: string, modelName: Option<string>, fallbacks: Option<seq<string>>, build: string -> Result<M, Failure>)
    requires apiKey != ""
    requires var order := TryOrder(modelName, fallbacks); order != [] && AllFail(order, build, |order|)
    ensures var order := TryOrder(modelName, fallbacks);
      CreateModel(apiKey, modelName, fallbacks, build) == Err(build(order[|order| - 1]).error)
  {
  }

  /** The loop of `create_gemini_model` over the try order. */
  method CreateGeminiModel<M(==)>(apiKey: string, modelName: Option<string>, fallbacks: Option<seq<string>>,
                                    build: string -> Result<M, Failure>) returns (r: Result<M, Failure>)
    ensures r == CreateModel(apiKey, modelName, fallbacks, build)
  {
    if apiKey == "" {
      return Err(MissingKey);
    }
    var fb := if fallbacks.None? then DefaultModels else fallbacks.value;
    var models := if modelName.Some? && modelName.value != "" then [modelName.value] + fb else fb;
    assert models == TryOrder(modelName, fallbacks);
    var lastError: Option<Failure> := None;
    var i := 0;
    while i < |models|
      invariant 0 <= i <= |models|
      invariant AllFail(models, build, i)
      invariant lastError == if i == 0 then None else Some(build(models[i - 1]).error)
    {
      var attempt := build(models[i]);
      if attempt.Ok? {
        FirstBuiltAt(models, build, i);
        return attempt;
      }
      lastError := Some(attempt.error);
      i := i + 1;
    }
    AllFailBuilt(models, build);
    if lastError.Some? {
      return Err(lastError.value);
    }
    r := build(LastResort);
  }

  /** Whether `generate_with_retry` treats an error message as a quota error. */
  predicate QuotaLike(message: string) {
    var m := Lower(message);
    Contains(m, "quota") || Contains(m, "429") || Contains(m, "rate limit")
  }

  function Pow2(k: nat): (r: real)
    ensures r >= 1.0
  {
    if k == 0 then 1.0 else 2.0 * Pow2(k - 1)
  }

  /** What a run of `generate_with_retry` did: its response or raised error, how many calls it
      made and the delays it slept, in order. */
  datatype Trace<R> = Trace(result: Result<R, Failure>, calls: nat, sleeps: seq<real>)

  /** The retry loop from `attempt` on, sleeping `delay` before the next attempt. A negative
      delay makes the first sleep raise, which ends the run after one call. */
  function Retry<R(==)>(call: nat -> Result<R, Failure>, attempt: nat, maxRetries: int, delay: real): (t: Trace<R>)
    requires attempt < maxRetries
    ensures attempt < t.calls <= maxRetries
    ensures |t.sleeps| == t.calls - 1 - attempt
    ensures delay >= 0.0 ==> t.result == call(t.calls - 1)
    ensures delay < 0.0 ==> t.calls == attempt + 1 && t.sleeps == []
    ensures delay < 0.0 && t.result != call(attempt) ==>
      t.result == Err(NegativeSleep) && call(attempt).Err? && QuotaLike(call(attempt).error.message) && attempt < maxRetries - 1
    decreases maxRetries - attempt
  {
    match call(attempt)
    case Ok(response) => Trace(Ok(response), attempt + 1, [])
    case Err(e) =>
      if QuotaLike(e.message) && attempt < maxRetries - 1 then
        if delay < 0.0 then Trace(Err(NegativeSleep), attempt + 1, [])
        else
          var t := Retry(call, attempt + 1, maxRetries, delay * 2.0);
          Trace(t.result, t.calls, [delay] + t.sleeps)
      else Trace(Err(e), attempt + 1, [])
  }

  /** A run that sleeps at least once made a quota-like attempt before the last one: it
      sleeps `delay` and goes on from the next attempt with the delay doubled. */
  lemma RetryUnfold<R>(call: nat -> Result<R, Failure>, attempt: nat, maxRetries: int, delay: real)
    requires attempt < maxRetries && Retry(call, attempt, maxRetries, delay).sleeps != []
    ensures attempt + 1 < maxRetries && delay >= 0.0
    ensures Retry(call, attempt, maxRetries, delay).sleeps == [delay] + Retry(call, attempt + 1, maxRetries, delay * 2.0).sleeps
  {
    var e := call(attempt).error;
    assert QuotaLike(e.message) && attempt < maxRetries - 1;
  }

  /** One attempt of the retry loop: a success or a final error ends the run, a quota-like
      error before the last attempt sleeps and goes on with the delay doubled, unless the
      delay is negative and the sleep raises. */
  lemma RetryCases<R>(call: nat -> Result<R, Failure>, attempt: nat, maxRetries: int, delay: real)
    requires attempt < maxRetries
    ensures var r := call(attempt);
      r.Err? && QuotaLike(r.error.message) && attempt < maxRetries - 1 && delay < 0.0 ==>
        Retry(call, attempt, maxRetries, delay) == Trace(Err(NegativeSleep), attempt + 1, [])
    ensures var r := call(attempt);
      r.Err? && QuotaLike(r.error.message) && attempt < maxRetries - 1 && delay >= 0.0 ==>
        var next := Retry(call, attempt + 1, maxRetries, delay * 2.0);
        Retry(call, attempt, maxRetries, delay) == Trace(next.result, next.calls, [delay] + next.sleeps)
    ensures var r := call(attempt);
      !(r.Err? && QuotaLike(r.error.message) && attempt < maxRetries - 1) ==>
        Retry(call, attempt, maxRetries, delay) == Trace(r, attempt + 1, [])
  {
  }

  /** Every call before the last one failed with a quota-like error, and a run that stops
      early on an error, with a delay it can sleep, stops on one that is not quota-like. */
  lemma {:induction false} RetryStops<R>(call: nat -> Result<R, Failure>, attempt: nat, maxRetries: int, delay: real)
    requires attempt < maxRetries
    ensures var t := Retry(call, attempt, maxRetries, delay);
      forall k :: attempt <= k < t.calls - 1 ==> call(k).Err? && QuotaLike(call(k).error.message)
    ensures var t := Retry(call, attempt, maxRetries, delay);
      delay >= 0.0 && t.result.Err? && t.calls < maxRetries ==> !QuotaLike(t.result.error.message)
    decreases maxRetries - attempt
  {
    RetryCases(call, attempt, maxRetries, delay);
    var r := call(attempt);
    if r.Err? && QuotaLike(r.error.message) && attempt < maxRetries - 1 && delay >= 0.0 {
      RetryStops(call, attempt + 1, maxRetries, delay * 2.0);
    }
  }

  /** Sleeps that start at `delay` and double each time. */
  predicate Doubling(sleeps: seq<real>, delay: real) {
    forall k :: 0 <= k < |sleeps| ==> sleeps[k] == delay * Pow2(k)
  }

  /** Sleeping `delay` before a doubling run from twice the delay is a doubling run. */
  lemma DoublingCons(delay: real, rest: seq<real>)
    requires Doubling(rest, delay * 2.0)
    ensures Doubling([delay] + rest, delay)
  {
    forall k | 0 < k < |rest| + 1
      ensures ([delay] + rest)[k] == delay * Pow2(k)
    {
      assert ([delay] + rest)[k] == rest[k - 1];
      assert Pow2(k) == 2.0 * Pow2(k - 1);
    }
  }

  /** The sleeps of a run start at the delay and double each time. */
  lemma {:induction false} RetrySleeps<R>(call: nat -> Result<R, Failure>, attempt: nat, maxRetries: int, delay: real)
    requires attempt < maxRetries
    ensures Doubling(Retry(call, attempt, maxRetries, delay).sleeps, delay)
    ensures delay < 0.0 ==> Retry(call, attempt, maxRetries, delay).sleeps == []
    decreases maxRetries - attempt
  {
    if Retry(call, attempt, maxRetries, delay).sleeps != [] {
      RetryUnfold(call, attempt, maxRetries, delay);
      RetrySleeps(call, attempt + 1, maxRetries, delay * 2.0);
      DoublingCons(delay, Retry(call, attempt + 1, maxRetries, delay * 2.0).sleeps);
    }
  }

  /** `generate_with_retry`; with no attempts allowed the loop never runs and `raise None` fails. */
  function Generate<R(==)>(call: nat -> Result<R, Failure>, maxRetries: int, initialDelay: real): (t: Trace<R>)
    ensures t.calls <= if maxRetries < 0 then 0 else maxRetries
    ensures maxRetries <= 0 ==> t == Trace(Err(RaiseNone), 0, [])
  {
    if maxRetries <= 0 then Trace(Err(RaiseNone), 0, []) else Retry(call, 0, maxRetries, initialDelay)
  }

  /** A success is returned as soon as it comes; every earlier call failed with a quota error.
      With a negative delay the answer is that of the first call, unless it asks for a sleep. */
  lemma GenerateReturnsFirstSuccess<R>(call: nat -> Result<R, Failure>, maxRetries: int, initialDelay: real)
    requires maxRetries >= 1
    ensures var t := Generate(call, maxRetries, initialDelay);
      && 1 <= t.calls <= maxRetries
      && (initialDelay >= 0.0 ==> t.result == call(t.calls - 1))
      && (forall k :: 0 <= k < t.calls - 1 ==> call(k).Err? && QuotaLike(call(k).error.message))
    ensures initialDelay < 0.0 ==> (Generate(call, maxRetries, initialDelay) ==
      if call(0).Err? && QuotaLike(call(0).error.message) && maxRetries >= 2
      then Trace(Err(NegativeSleep), 1, []) else Trace(call(0), 1, []))
  {
    RetryStops(call, 0, maxRetries, initialDelay);
    RetryCases(call, 0, maxRetries, initialDelay);
  }

  /** A first error that is not quota-like is raised at once, after one call and no sleep. */
  lemma NonQuotaRaisedAtOnce<R>(call: nat -> Result<R, Failure>, maxRetries: int, initialDelay: real)
    requires maxRetries >= 1 && call(0).Err? && !QuotaLike(call(0).error.message)
    ensures Generate(call, maxRetries, initialDelay) == Trace(call(0), 1, [])
  {
  }

  /** The sleeps double: initial, 2·initial, 4·initial, ..., one fewer than the calls made.
      A negative delay is never slept. */
  lemma BackoffDoubles<R>(call: nat -> Result<R, Failure>, maxRetries: int, initialDelay: real)
    requires maxRetries >= 1
    ensures var t := Generate(call, maxRetries, initialDelay);
      && |t.sleeps| == t.calls - 1
      && (forall k :: 0 <= k < |t.sleeps| ==> t.sleeps[k] == initialDelay * Pow2(k))
      && (initialDelay < 0.0 ==> t.sleeps == [])
  {
    RetrySleeps(call, 0, maxRetries, initialDelay);
  }

  /** When every call fails with a quota error, all attempts are used and the last error is
      raised; with a negative delay the first sleep raises instead. */
  lemma QuotaExhaustsAttempts<R>(call: nat -> Result<R, Failure>, maxRetries: int, initialDelay: real)
    requires maxRetries >= 1
    requires forall k :: 0 <= k < maxRetries ==> call(k).Err? && QuotaLike(call(k).error.message)
    ensures initialDelay >= 0.0 || maxRetries == 1 ==>
      Generate(call, maxRetries, initialDelay).calls == maxRetries &&
      Generate(call, maxRetries, initialDelay).result == call(maxRetries - 1)
    ensures initialDelay < 0.0 && maxRetries >= 2 ==>
      Generate(call, maxRetries, initialDelay) == Trace(Err(NegativeSleep), 1, [])
  {
    var t := Generate(call, maxRetries, initialDelay);
    RetryStops(call, 0, maxRetries, initialDelay);
    RetryCases(call, 0, maxRetries, initialDelay);
    if initialDelay >= 0.0 {
      assert call(t.calls - 1).Err?;
    }
  }

  /** The retry loop of `generate_with_retry`, recording the calls made and the sleeps taken. */
  method GenerateWithRetry<R(==)>(call: nat -> Result<R, Failure>, maxRetries: int, initialDelay: real) returns (t: Trace<R>)
    ensures t == Generate(call, maxRetries, initialDelay)
  {
    var delay := initialDelay;
    var lastError: Option<Failure> := None;
    var sleeps: seq<real> := [];
    var attempt := 0;
    while attempt < maxRetries
      invariant attempt == 0 || attempt < maxRetries
      invariant lastError.None? <==> attempt == 0
      invariant attempt < maxRetries ==>
        var rest := Retry(call, attempt, maxRetries, delay);
        Generate(call, maxRetries, initialDelay) == Trace(rest.result, rest.calls, sleeps + rest.sleeps)
      decreases maxRetries - attempt
    {
      RetryCases(call, attempt, maxRetries, delay);
      var response := call(attempt);
      if response.Ok? {
        assert sleeps + [] == sleeps;
        return Trace(response, attempt + 1, sleeps);
      }
      lastError := Some(response.error);
      if QuotaLike(response.error.message) && attempt < maxRetries - 1 {
        if delay < 0.0 {
          assert sleeps + [] == sleeps;
          return Trace(Err(NegativeSleep), attempt + 1, sleeps);
        }
        assert sleeps + ([delay] + Retry(call, attempt + 1, maxRetries, delay * 2.0).sleeps)
            == (sleeps + [delay]) + Retry(call, attempt + 1, maxRetries, delay * 2.0).sleeps;
        sleeps := sleeps + [delay];
        delay := delay * 2.0;
        attempt := attempt + 1;
        continue;
      }
      assert sleeps + [] == sleeps;
      return Trace(response, attempt + 1, sleeps);
    }
    assert lastError.None?;
    t := Trace(Err(RaiseNone), 0, []);
  }

  const QuotaText := "\U{26A0}\U{FE0F} Gemini API quota limit reached. Please try again later or upgrade to a paid plan. Free tier limits: 15 requests/minute, 1500 requests/day."
  const RateText := "\U{26A0}\U{FE0F} Rate limit exceeded. Please wait a moment and try again."
  const KeyText := "\U{274C} Invalid API key. Please check your Gemini API key configuration."
  const ErrorPrefix := "\U{274C} Gemini API error: "

  /** The message matches one of the keyword tests of `get_quota_friendly_message`. */
  predicate QuotaKeyword(message: string) {
    Contains(Lower(message), "quota") || Contains(message, "429")
  }

  predicate KeyKeyword(message: string) {
    Contains(Lower(message), "invalid api key") || Contains(Lower(message), "authentication")
  }

  /** `get_quota_friendly_message`: the first matching test decides the text; an unmatched error
      is shown after a prefix, cut to its first 200 characters. */
  function FriendlyMessage(message: string): (r: string)
    ensures QuotaKeyword(message) ==> r == QuotaText
    ensures !QuotaKeyword(message) && Contains(Lower(message), "rate limit") ==> r == RateText
    ensures !QuotaKeyword(message) && !Contains(Lower(message), "rate limit") && KeyKeyword(message) ==> r == KeyText
    ensures !QuotaKeyword(message) && !Contains(Lower(message), "rate limit") && !KeyKeyword(message) ==>
      && |r| >= |ErrorPrefix| && r[..|ErrorPrefix|] == ErrorPrefix
      && r[|ErrorPrefix|..] == message[..if |message| < 200 then |message| else 200]
  {
    if QuotaKeyword(message) then QuotaText
    else if Contains(Lower(message), "rate limit") then RateText
    else if KeyKeyword(message) then KeyText
    else ErrorPrefix + message[..if |message| < 200 then |message| else 200]
  }

  /** The fallback text is never longer than the prefix plus 200 characters, and keeps a short
      message whole. */
  lemma FallbackBounded(message: string)
    requires !QuotaKeyword(message) && !Contains(Lower(message), "rate limit") && !KeyKeyword(message)
    ensures |FriendlyMessage(message)| <= |ErrorPrefix| + 200
    ensures |message| <= 200 ==> FriendlyMessage(message) == ErrorPrefix + message
  {
  }

  /** Lower-casing only changes letters, so a digit string is found in the lower-cased text
      exactly where it is found in the text itself. */
  lemma DigitsSurviveLower(message: string)
    ensures Contains(Lower(message), "429") ==> Contains(message, "429")
  {
    if Contains(Lower(message), "429") {
      var i := ContainsWitness(Lower(message), "429");
      var low := Lower(message);
      assert low[i..i + 3] == "429";
      assert low[i] == '4' && low[i + 1] == '2' && low[i + 2] == '9';
      assert message[i..i + 3] == "429";
      ContainsAt(message, "429", i);
    }
  }

  /** Every error that the retry loop treats as a quota error is reported to the user as a quota
      or rate-limit problem. */
  lemma RetriedErrorsReportedAsQuota(message: string)
    requires QuotaLike(message)
    ensures FriendlyMessage(message) == QuotaText || FriendlyMessage(message) == RateText
  {
    DigitsSurviveLower(message);
  }
}
