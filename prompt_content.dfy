/** The prompt-content retry loop of `prepare_db` (prepare_db.py): for each
    video id, `generate_prompt_content_async` is called until it answers with
    a status that is neither 202 nor 409 and passes `raise_for_status`, or
    until five attempts have been used up. */
module PromptContent {

  /** Attempts allowed per video (`retries = 5`). */
  const MaxRetries: nat := 5

  /** One answer of `generate_prompt_content_async`: a response with an HTTP
      status code, or an exception. */
  datatype Reply = Status(code: int) | Raised

  /** How the loop treats one answer. `InProgress` (202) and `Conflict` (409)
      sleep and use up an attempt; `Failed` (an exception, or an error status
      that makes `raise_for_status` raise inside the same `try`) uses up an
      attempt without sleeping; `Done` ends the loop for that video. */
  datatype Outcome = InProgress | Conflict | Failed | Done

  /** `raise_for_status` of the HTTP client raises for client and server
      error statuses. */
  predicate IsErrorStatus(code: int) {
    400 <= code < 600
  }

  function Classify(reply: Reply): (o: Outcome)
    ensures o == Done <==> reply.Status? && reply.code != 202 && reply.code != 409 && !IsErrorStatus(reply.code)
    ensures o == InProgress <==> reply == Status(202)
    ensures o == Conflict <==> reply == Status(409)
  {
    match reply
    case Raised => Failed
    case Status(code) =>
      if code == 202 then InProgress
      else if code == 409 then Conflict
      else if IsErrorStatus(code) then Failed
      else Done
  }

  /** What the loop did for one video: how many calls it made, how many
      60-second sleeps it took, and whether it ended on an accepted answer. */
  datatype Attempts = Attempts(calls: nat, sleeps: nat, done: bool)

  /** An answer after which the loop sleeps: status 202 or 409. */
  predicate Sleeping(reply: Reply) {
    reply == Status(202) || reply == Status(409)
  }

  /** How many of the answers to calls `first` to `first + n - 1` make the
      loop sleep. */
  function Sleeps(reply: nat -> Reply, first: nat, n: nat): (s: nat)
    ensures s <= n
    ensures s == n <==> forall k :: first <= k < first + n ==> Sleeping(reply(k))
    decreases n
  {
    if n == 0 then 0
    else (if Sleeping(reply(first)) then 1 else 0) + Sleeps(reply, first + 1, n - 1)
  }

  /** The loop from call number `first` with `retries` attempts left, where
      `reply(k)` is the answer to call number `k`. */
  function RetryFrom(reply: nat -> Reply, first: nat, retries: nat): (r: Attempts)
    ensures first <= r.calls <= first + retries
    ensures retries > 0 ==> first < r.calls
    ensures r.sleeps <= r.calls - first
    ensures r.done <==> exists k :: first <= k < first + retries && Classify(reply(k)) == Done
    ensures r.done ==> Classify(reply(r.calls - 1)) == Done
    ensures forall k :: first <= k < r.calls - (if r.done then 1 else 0) ==> Classify(reply(k)) != Done
    ensures !r.done ==> r.calls == first + retries
    decreases retries
  {
    if retries == 0 then
      Attempts(first, 0, false)
    else
      match Classify(reply(first))
      case Done => Attempts(first + 1, 0, true)
      case Failed => RetryFrom(reply, first + 1, retries - 1)
      case _ =>
        var r := RetryFrom(reply, first + 1, retries - 1);
        r.(sleeps := r.sleeps + 1)
  }

  /** The loop from call `first` with `retries` attempts left sleeps once
      for each 202 or 409 answer among the calls it makes. */
  predicate SleepsCounted(reply: nat -> Reply, first: nat, retries: nat) {
    RetryFrom(reply, first, retries).sleeps
      == Sleeps(reply, first, RetryFrom(reply, first, retries).calls - first)
  }

  /** An attempt that does not end the loop adds its own sleep, if any, to
      those of the remaining attempts. */
  lemma SleepsCountedStep(reply: nat -> Reply, first: nat, retries: nat)
    requires retries > 0 && Classify(reply(first)) != Done
    requires SleepsCounted(reply, first + 1, retries - 1)
    ensures SleepsCounted(reply, first, retries)
  {
    var rest := RetryFrom(reply, first + 1, retries - 1);
    var step := if Sleeping(reply(first)) then 1 else 0;
    assert RetryFrom(reply, first, retries) == rest.(sleeps := rest.sleeps + step);
    assert Sleeps(reply, first, rest.calls - first)
        == step + Sleeps(reply, first + 1, rest.calls - (first + 1));
  }

  /** The loop sleeps exactly once for each 202 or 409 answer among the
      calls it makes. */
  lemma {:induction false} RetryFromSleeps(reply: nat -> Reply, first: nat, retries: nat)
    ensures SleepsCounted(reply, first, retries)
    decreases retries
  {
    if retries > 0 && Classify(reply(first)) != Done {
      RetryFromSleeps(reply, first + 1, retries - 1);
      SleepsCountedStep(reply, first, retries);
    }
  }

  /** The loop for one video. It always ends, never lets an exception out,
      makes between one and five calls, and ends early exactly on the first
      accepted answer. */
  method RetryPromptContent(reply: nat -> Reply) returns (calls: nat, sleeps: nat, done: bool)
    ensures Attempts(calls, sleeps, done) == RetryFrom(reply, 0, MaxRetries)
    ensures 1 <= calls <= MaxRetries
    ensures done <==> exists k :: 0 <= k < MaxRetries && Classify(reply(k)) == Done
    ensures !done ==> calls == MaxRetries
  {
    var retries := MaxRetries;
    calls, sleeps, done := 0, 0, false;
    while retries > 0
      invariant calls + retries == MaxRetries
      invariant !done
      invariant RetryFrom(reply, 0, MaxRetries)
             == var r := RetryFrom(reply, calls, retries); r.(sleeps := r.sleeps + sleeps)
      decreases retries
    {
      var answer := reply(calls);
      calls := calls + 1;
      match Classify(answer)
      case InProgress =>
        sleeps := sleeps + 1;
        retries := retries - 1;
      case Conflict =>
        sleeps := sleeps + 1;
        retries := retries - 1;
      case Done =>
        done := true;
        break;
      case Failed =>
        retries := retries - 1;
    }
  }

  /** Total calls over all videos. */
  function TotalCalls(results: seq<Attempts>): nat {
    if results == [] then 0 else results[0].calls + TotalCalls(results[1..])
  }

  /** A bound on every video's call count bounds the total. */
  lemma {:induction false} TotalCallsBounds(results: seq<Attempts>)
    requires forall i :: 0 <= i < |results| ==> 1 <= results[i].calls <= MaxRetries
    ensures |results| <= TotalCalls(results) <= MaxRetries * |results|
  {
    if results != [] {
      TotalCallsBounds(results[1..]);
    }
  }

  /** The answers to the calls for the `i`-th video. */
  function ForVideo(reply: (nat, nat) -> Reply, i: nat): nat -> Reply {
    (k: nat) => reply(i, k)
  }

  /** The loop over `videos_ids.values()`: every video gets its own counter
      of five attempts, whatever happened to the videos before it.
      `reply(i, k)` is the answer to the `k`-th call for `videoIds[i]`. */
  method PromptContentStage(videoIds: seq<string>, reply: (nat, nat) -> Reply) returns (results: seq<Attempts>)
    ensures |results| == |videoIds|
    ensures forall i: nat :: i < |videoIds| ==> results[i] == RetryFrom(ForVideo(reply, i), 0, MaxRetries)
    ensures |videoIds| <= TotalCalls(results) <= MaxRetries * |videoIds|
  {
    results := [];
    for i := 0 to |videoIds|
      invariant |results| == i
      invariant forall j: nat :: j < i ==> results[j] == RetryFrom(ForVideo(reply, j), 0, MaxRetries)
      invariant forall j :: 0 <= j < i ==> 1 <= results[j].calls <= MaxRetries
    {
      var calls, sleeps, done := RetryPromptContent(ForVideo(reply, i));
      results := results + [Attempts(calls, sleeps, done)];
    }
    TotalCallsBounds(results);
  }

  /** Answers 202, 202, then 200: two sleeps, three calls, and the loop ends
      on the accepted answer. */
  lemma TwoInProgressThenOk(reply: nat -> Reply)
    requires reply(0) == Status(202) && reply(1) == Status(202) && reply(2) == Status(200)
    ensures RetryFrom(reply, 0, MaxRetries) == Attempts(3, 2, true)
  {
    assert RetryFrom(reply, 2, 3) == Attempts(3, 0, true);
    assert RetryFrom(reply, 1, 4) == Attempts(3, 1, true);
  }

  /** Five answers 202 in a row: the loop gives up after exactly five calls,
      having slept five times, without an exception. */
  lemma FiveInProgressGivesUp(reply: nat -> Reply)
    requires forall k :: 0 <= k < MaxRetries ==> reply(k) == Status(202)
    ensures RetryFrom(reply, 0, MaxRetries) == Attempts(5, 5, false)
  {
    assert RetryFrom(reply, 4, 1) == Attempts(5, 1, false);
    assert RetryFrom(reply, 3, 2) == Attempts(5, 2, false);
    assert RetryFrom(reply, 2, 3) == Attempts(5, 3, false);
    assert RetryFrom(reply, 1, 4) == Attempts(5, 4, false);
  }
}
