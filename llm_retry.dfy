/**
 * The retry-and-fallback state machine of `LLMClient.chat` and
 * `LLMClient.achat`, stated as the sequence of attempts it makes. An attempt's
 * outcome is a function of the call; the client's methods are proved to make
 * exactly these attempts, and the lemmas here state what the sequence
 * guarantees.
 */
module LlmRetry {
  import opened Wrappers
  import opened Text
  import opened LlmRouting

  /** The fields of `LLMResponse` the orchestration reads or sets. */
  datatype Response = Response(content: string, model: Option<string>, provider: string, finishReason: string)

  /** What one attempt produced: a reply, or an exception with its text. */
  datatype Outcome = Ok(response: Response) | Fail(message: string)

  /** One attempt and its outcome. */
  datatype Step = Step(call: Call, outcome: Outcome)

  /** A failed attempt after which the same provider is tried again: transient and not the last. */
  predicate Retryable(s: Step, n: int)
  {
    s.outcome.Fail? && !IsFatal(s.outcome.message) && s.call.attempt < n - 1
  }

  /** The attempts on provider `p` from attempt `k` on, with `n` attempts allowed. */
  function ProviderSteps(o: Call -> Outcome, r: Route, p: string, k: nat, n: int): seq<Step>
    decreases n - k
  {
    if k >= n then []
    else
      var c := CallFor(r, p, k);
      var s := Step(c, o(c));
      if Retryable(s, n) then [s] + ProviderSteps(o, r, p, k + 1, n) else [s]
  }

  predicate Succeeded(steps: seq<Step>)
  {
    steps != [] && steps[|steps| - 1].outcome.Ok?
  }

  /** The attempts along a chain of providers, ending at the first success. */
  function ChainSteps(o: Call -> Outcome, r: Route, chain: seq<string>, n: int): seq<Step>
  {
    if chain == [] then []
    else
      var s := ProviderSteps(o, r, chain[0], 0, n);
      if Succeeded(s) then s else s + ChainSteps(o, r, chain[1..], n)
  }

  /** The waits between attempts: one backoff after each retryable failure. */
  function Sleeps(steps: seq<Step>, n: int, delay: int): seq<int>
  {
    if steps == [] then []
    else (if Retryable(steps[0], n) then [Backoff(delay, steps[0].call.attempt)] else []) + Sleeps(steps[1..], n, delay)
  }

  /** The text of the ValueError `time.sleep` raises for a negative length. */
  const SleepNegative: string := "sleep length must be non-negative"

  /** The index of the first attempt of `steps` that asks for another, or `|steps|` when none does. */
  function FirstRetry(steps: seq<Step>, n: int): (k: nat)
    ensures k <= |steps|
    ensures forall i :: 0 <= i < k ==> !Retryable(steps[i], n)
    ensures k < |steps| ==> Retryable(steps[k], n)
  {
    if steps == [] then 0
    else if Retryable(steps[0], n) then 0
    else 1 + FirstRetry(steps[1..], n)
  }

  /**
   * Whether the synchronous walk over `steps` stops on `time.sleep`: the
   * delay is negative and some attempt asks for a retry, so for a wait.
   */
  predicate SleepRaises(steps: seq<Step>, n: int, delay: int)
  {
    delay < 0 && FirstRetry(steps, n) < |steps|
  }

  /**
   * How a call ends: a reply, the last exception re-raised, `raise None`
   * (a TypeError), the UnboundLocalError of the fallback message's `sys`
   * when no attempt ever failed, or `achat`'s implicit `None`.
   */
  datatype ChatResult = Replied(response: Response) | Raised(message: string) | RaisedNone | RaisedUnbound | ReturnedNone

  /** `chat`'s result after the attempts `steps` along a chain of `chainLength` providers. */
  function ChatResultOf(steps: seq<Step>, chainLength: nat): ChatResult
  {
    if steps == [] then (if chainLength > 1 then RaisedUnbound else RaisedNone)
    else match steps[|steps| - 1].outcome
      case Ok(resp) => Replied(resp)
      case Fail(m) => Raised(m)
  }

  /** `achat`'s result after the attempts `steps` on its one provider. */
  function AChatResultOf(steps: seq<Step>): ChatResult
  {
    if steps == [] then ReturnedNone
    else match steps[|steps| - 1].outcome
      case Ok(resp) => Replied(resp)
      case Fail(m) => Raised(m)
  }

  // ------------------------------------------------------------ lemmas

  /**
   * The attempts on one provider: consecutive attempt numbers from `k`, at
   * most `n - k` of them and at least one when any is allowed, each a
   * retryable failure except the last, which is not.
   */
  lemma {:induction false} ProviderStepsShape(o: Call -> Outcome, r: Route, p: string, k: nat, n: int)
    ensures var s := ProviderSteps(o, r, p, k, n);
      && (k >= n ==> s == [])
      && (k < n ==> 1 <= |s| <= n - k)
      && (forall j :: 0 <= j < |s| ==> s[j].call == CallFor(r, p, k + j) && s[j].outcome == o(s[j].call))
      && (forall j :: 0 <= j < |s| - 1 ==> Retryable(s[j], n))
      && (s != [] ==> !Retryable(s[|s| - 1], n))
    decreases n - k
  {
    if k < n {
      var c := CallFor(r, p, k);
      var st := Step(c, o(c));
      if Retryable(st, n) {
        ProviderStepsShape(o, r, p, k + 1, n);
        var rest := ProviderSteps(o, r, p, k + 1, n);
        assert ProviderSteps(o, r, p, k, n) == [st] + rest;
        forall j | 1 <= j < 1 + |rest|
          ensures ([st] + rest)[j] == rest[j - 1]
        {
        }
      }
    }
  }

  /** The lengths alone: none when no attempt is allowed, else between one and `n - k`, the last on `p`. */
  lemma {:induction false} ProviderStepsLength(o: Call -> Outcome, r: Route, p: string, k: nat, n: int)
    ensures var s := ProviderSteps(o, r, p, k, n);
      && (k >= n <==> s == [])
      && (k < n ==> |s| <= n - k)
      && (s != [] ==> s[|s| - 1].call.provider == p)
    decreases n - k
  {
    if k < n {
      var c := CallFor(r, p, k);
      var st := Step(c, o(c));
      if Retryable(st, n) {
        ProviderStepsLength(o, r, p, k + 1, n);
        assert ProviderSteps(o, r, p, k, n) == [st] + ProviderSteps(o, r, p, k + 1, n);
      }
    }
  }

  /**
   * A provider's attempts ask for a retry exactly when there are two or
   * more of them, and then the first one does.
   */
  lemma ProviderStepsRetryFirst(o: Call -> Outcome, r: Route, p: string, n: int)
    ensures var s := ProviderSteps(o, r, p, 0, n);
      FirstRetry(s, n) == if |s| >= 2 then 0 else |s|
  {
    if 0 < n {
      var c := CallFor(r, p, 0);
      var st := Step(c, o(c));
      if Retryable(st, n) {
        ProviderStepsLength(o, r, p, 1, n);
        assert ProviderSteps(o, r, p, 0, n) == [st] + ProviderSteps(o, r, p, 1, n);
      } else {
        assert ProviderSteps(o, r, p, 0, n) == [st];
        assert [st][1..] == [];
      }
    }
  }

  /** Attempts that never ask for a retry come first: the search goes on into what follows. */
  lemma {:induction false} FirstRetryAppend(a: seq<Step>, b: seq<Step>, n: int)
    requires FirstRetry(a, n) == |a|
    ensures FirstRetry(a + b, n) == |a| + FirstRetry(b, n)
    decreases |a|
  {
    if a != [] {
      assert (a + b)[0] == a[0] && (a + b)[1..] == a[1..] + b;
      FirstRetryAppend(a[1..], b, n);
    } else {
      assert a + b == b;
    }
  }

  /** Without a retry there is no wait. */
  lemma {:induction false} SleepsNoRetry(steps: seq<Step>, n: int, delay: int)
    requires FirstRetry(steps, n) == |steps|
    ensures Sleeps(steps, n, delay) == []
    decreases |steps|
  {
    if steps != [] {
      SleepsNoRetry(steps[1..], n, delay);
    }
  }

  /** With no attempts allowed nothing is tried. */
  lemma NoAttemptsNoSteps(o: Call -> Outcome, r: Route, chain: seq<string>, n: int)
    requires n <= 0
    ensures ChainSteps(o, r, chain, n) == []
  {
    if chain != [] {
      NoAttemptsNoSteps(o, r, chain[1..], n);
    }
  }

  /**
   * Every attempt in `s` is the call built for its provider and attempt
   * number, on a provider of `chain`, and its outcome is the oracle's answer.
   */
  ghost predicate CallsFrom(o: Call -> Outcome, r: Route, chain: seq<string>, s: seq<Step>)
  {
    forall j :: 0 <= j < |s| ==>
      s[j].call.provider in chain && s[j].call == CallFor(r, s[j].call.provider, s[j].call.attempt) &&
      s[j].outcome == o(s[j].call)
  }

  /** Every attempt along a chain is made on a provider of the chain, with the call built for it. */
  lemma {:induction false} ChainStepsCalls(o: Call -> Outcome, r: Route, chain: seq<string>, n: int)
    ensures CallsFrom(o, r, chain, ChainSteps(o, r, chain, n))
  {
    if chain != [] {
      var ps := ProviderSteps(o, r, chain[0], 0, n);
      ProviderStepsShape(o, r, chain[0], 0, n);
      if !Succeeded(ps) {
        var rest := ChainSteps(o, r, chain[1..], n);
        ChainStepsCalls(o, r, chain[1..], n);
        var s := ps + rest;
        assert ChainSteps(o, r, chain, n) == s;
        forall j | 0 <= j < |s|
          ensures s[j].call.provider in chain && s[j].call == CallFor(r, s[j].call.provider, s[j].call.attempt) &&
            s[j].outcome == o(s[j].call)
        {
          if j >= |ps| {
            var i := j - |ps|;
            assert s[j] == rest[i];
            assert rest[i].call.provider in chain[1..];
          }
        }
      }
    }
  }

  /** Every attempt in `s` but the last failed. */
  ghost predicate FailsBeforeLast(s: seq<Step>)
  {
    forall j :: 0 <= j < |s| - 1 ==> s[j].outcome.Fail?
  }

  /** Only the last attempt along a chain can have succeeded: the first success ends the call. */
  lemma {:induction false} ChainStepsStopAtSuccess(o: Call -> Outcome, r: Route, chain: seq<string>, n: int)
    ensures FailsBeforeLast(ChainSteps(o, r, chain, n))
  {
    if chain != [] {
      var ps := ProviderSteps(o, r, chain[0], 0, n);
      ProviderStepsShape(o, r, chain[0], 0, n);
      if !Succeeded(ps) {
        var rest := ChainSteps(o, r, chain[1..], n);
        ChainStepsStopAtSuccess(o, r, chain[1..], n);
        var s := ps + rest;
        assert ChainSteps(o, r, chain, n) == s;
        forall j | 0 <= j < |s| - 1 ensures s[j].outcome.Fail? {
          if j < |ps| - 1 {
            assert Retryable(ps[j], n);
          } else if j == |ps| - 1 {
            assert !Succeeded(ps);
          } else {
            var i := j - |ps|;
            assert s[j] == rest[i];
            assert i < |rest| - 1;
          }
        }
      }
    }
  }

  /** A call makes at most `n` attempts per provider. */
  lemma {:induction false} ChainStepsAtMost(o: Call -> Outcome, r: Route, chain: seq<string>, n: int)
    requires n >= 0
    ensures |ChainSteps(o, r, chain, n)| <= |chain| * n
  {
    if chain != [] {
      var ps := ProviderSteps(o, r, chain[0], 0, n);
      var rest := ChainSteps(o, r, chain[1..], n);
      ProviderStepsLength(o, r, chain[0], 0, n);
      ChainStepsAtMost(o, r, chain[1..], n);
      assert |ChainSteps(o, r, chain, n)| <= |ps| + |rest|;
      MulSucc(|chain[1..]|, n);
    }
  }

  lemma MulSucc(a: nat, n: nat)
    ensures (a + 1) * n == n + a * n
  {
  }

  /**
   * At least one attempt is made when any is allowed, and when every attempt
   * fails the last was on the chain's last provider.
   */
  lemma {:induction false} ChainStepsLast(o: Call -> Outcome, r: Route, chain: seq<string>, n: int)
    requires n >= 1 && chain != []
    ensures var s := ChainSteps(o, r, chain, n);
      s != [] && (!Succeeded(s) ==> s[|s| - 1].call.provider == chain[|chain| - 1])
  {
    var ps := ProviderSteps(o, r, chain[0], 0, n);
    ProviderStepsLength(o, r, chain[0], 0, n);
    if !Succeeded(ps) {
      var rest := ChainSteps(o, r, chain[1..], n);
      var s := ps + rest;
      assert ChainSteps(o, r, chain, n) == s;
      if chain[1..] == [] {
        assert rest == [] && s == ps;
      } else {
        ChainStepsLast(o, r, chain[1..], n);
        assert s[|s| - 1] == rest[|rest| - 1];
      }
    }
  }

  /** When every provider fails, `chat` re-raises the last attempt's exception. */
  lemma ExhaustedRaisesLast(o: Call -> Outcome, r: Route, chain: seq<string>, n: int)
    requires n >= 1 && chain != []
    requires !Succeeded(ChainSteps(o, r, chain, n))
    ensures var s := ChainSteps(o, r, chain, n);
      s != [] && ChatResultOf(s, |chain|) == Raised(s[|s| - 1].outcome.message) &&
      s[|s| - 1].call.provider == chain[|chain| - 1]
  {
    ChainStepsLast(o, r, chain, n);
  }

  /**
   * What follows each attempt: after a retryable failure the same provider
   * is tried with the next attempt number; after anything else (a fatal error
   * or the last attempt) the next provider of the chain starts at attempt 0.
   */
  lemma {:induction false} NextAttempt(o: Call -> Outcome, r: Route, chain: seq<string>, n: int, j: nat)
    requires Distinct(chain)
    requires j + 1 < |ChainSteps(o, r, chain, n)|
    ensures var s := ChainSteps(o, r, chain, n);
      if Retryable(s[j], n) then
        s[j + 1].call.provider == s[j].call.provider && s[j + 1].call.attempt == s[j].call.attempt + 1
      else
        s[j + 1].call.attempt == 0 && s[j + 1].call.provider != s[j].call.provider
  {
    var ps := ProviderSteps(o, r, chain[0], 0, n);
    ProviderStepsShape(o, r, chain[0], 0, n);
    ChainStepsCalls(o, r, chain, n);
    if Succeeded(ps) {
      assert ChainSteps(o, r, chain, n) == ps;
      return;
    }
    var rest := ChainSteps(o, r, chain[1..], n);
    var s := ps + rest;
    assert ChainSteps(o, r, chain, n) == s;
    if j + 1 < |ps| {
    } else if j + 1 == |ps| {
      var tail := chain[1..];
      assert tail != [] && n >= 1;
      ChainStepsLast(o, r, tail, n);
      var ps1 := ProviderSteps(o, r, tail[0], 0, n);
      ProviderStepsShape(o, r, tail[0], 0, n);
      assert rest[..|ps1|] == ps1 || rest == ps1;
      assert s[j + 1] == rest[0] == ps1[0];
      assert chain[0] != chain[1];
    } else {
      assert Distinct(chain[1..]);
      NextAttempt(o, r, chain[1..], n, j - |ps|);
      assert s[j] == rest[j - |ps|] && s[j + 1] == rest[j + 1 - |ps|];
    }
  }

  lemma {:induction false} SleepsAppend(a: seq<Step>, b: seq<Step>, n: int, delay: int)
    ensures Sleeps(a + b, n, delay) == Sleeps(a, n, delay) + Sleeps(b, n, delay)
  {
    if a != [] {
      assert (a + b)[1..] == a[1..] + b;
      SleepsAppend(a[1..], b, n, delay);
    } else {
      assert a + b == b;
    }
  }

  /** `m` waits from attempt `k` on: `delay * 2^k`, `delay * 2^(k+1)`, ... */
  function Backoffs(delay: int, k: nat, m: nat): (w: seq<int>)
    ensures |w| == m
    decreases m
  {
    if m == 0 then [] else [Backoff(delay, k)] + Backoffs(delay, k + 1, m - 1)
  }

  /** One more wait is the backoff of the next attempt. */
  lemma {:induction false} BackoffsSnoc(delay: int, k: nat, m: nat)
    ensures Backoffs(delay, k, m + 1) == Backoffs(delay, k, m) + [Backoff(delay, k + m)]
    decreases m
  {
    if m > 0 {
      BackoffsSnoc(delay, k + 1, m - 1);
    }
  }

  /** The `i`-th wait from attempt `k` is the backoff of attempt `k + i`. */
  lemma {:induction false} BackoffsAt(delay: int, k: nat, m: nat, i: nat)
    requires i < m
    ensures Backoffs(delay, k, m)[i] == Backoff(delay, k + i)
    decreases m
  {
    if i > 0 {
      BackoffsAt(delay, k + 1, m - 1, i - 1);
    }
  }

  /**
   * The waits on one provider grow as `delay * 2^attempt`, one after every
   * attempt but the last.
   */
  lemma {:induction false} ProviderSleeps(o: Call -> Outcome, r: Route, p: string, k: nat, n: int, delay: int)
    ensures var s := ProviderSteps(o, r, p, k, n);
      Sleeps(s, n, delay) == Backoffs(delay, k, if |s| > 0 then |s| - 1 else 0)
    decreases n - k
  {
    if k < n {
      var c := CallFor(r, p, k);
      var st := Step(c, o(c));
      var s := ProviderSteps(o, r, p, k, n);
      if Retryable(st, n) {
        var rest := ProviderSteps(o, r, p, k + 1, n);
        ProviderSleeps(o, r, p, k + 1, n, delay);
        assert k + 1 < n;
        assert rest != [];
        assert s == [st] + rest;
        assert s[1..] == rest;
      } else {
        assert s == [st];
        assert s[1..] == [];
      }
    }
  }

  // ------------------------------------------------- the loops, step by step

  /**
   * The attempt loop on provider `p` after `attempt` attempts, each of which
   * asked for another: `local` are those attempts, the rest of the provider's
   * attempts are still to come, `last` is the latest outcome, and the log and
   * the waits have grown by the attempts and their backoffs.
   */
  ghost predicate AttemptLoop(o: Call -> Outcome, r: Route, p: string, n: int, delay: int, attempt: nat,
                              local: seq<Step>, last: Option<Outcome>,
                              trace0: seq<Step>, trace: seq<Step>, sleeps0: seq<int>, sleeps: seq<int>)
  {
    && ProviderSteps(o, r, p, 0, n) == local + ProviderSteps(o, r, p, attempt, n)
    && |local| == attempt && (attempt == 0 || attempt < n)
    && last == (if local == [] then None else Some(local[|local| - 1].outcome))
    && trace == trace0 + local
    && sleeps == sleeps0 + Backoffs(delay, 0, attempt)
  }

  /**
   * The attempt loop on `p` has ended: the log grew by exactly the
   * provider's attempts, the waits by their backoffs, and `last` is the
   * outcome of the final attempt (none when no attempt was allowed).
   */
  ghost predicate AttemptsMade(o: Call -> Outcome, r: Route, p: string, n: int, delay: int, last: Option<Outcome>,
                               trace0: seq<Step>, trace: seq<Step>, sleeps0: seq<int>, sleeps: seq<int>)
  {
    var steps := ProviderSteps(o, r, p, 0, n);
    && last == (if steps == [] then None else Some(steps[|steps| - 1].outcome))
    && trace == trace0 + steps
    && sleeps == sleeps0 + Sleeps(steps, n, delay)
  }

  lemma AttemptLoopStart(o: Call -> Outcome, r: Route, p: string, n: int, delay: int, trace: seq<Step>, sleeps: seq<int>)
    ensures AttemptLoop(o, r, p, n, delay, 0, [], None, trace, trace, sleeps, sleeps)
  {
    assert trace + [] == trace && sleeps + [] == sleeps;
  }

  /** Attempt `attempt` ran with outcome `out`: the loop goes on after a retryable failure and is done otherwise. */
  lemma AttemptLoopStep(o: Call -> Outcome, r: Route, p: string, n: int, delay: int, attempt: nat,
                        local: seq<Step>, last: Option<Outcome>,
                        trace0: seq<Step>, trace: seq<Step>, sleeps0: seq<int>, sleeps: seq<int>, out: Outcome)
    requires AttemptLoop(o, r, p, n, delay, attempt, local, last, trace0, trace, sleeps0, sleeps)
    requires attempt < n && out == o(CallFor(r, p, attempt))
    ensures var st := Step(CallFor(r, p, attempt), out);
      if Retryable(st, n) then
        AttemptLoop(o, r, p, n, delay, attempt + 1, local + [st], Some(out),
                    trace0, trace + [st], sleeps0, sleeps + [Backoff(delay, attempt)])
      else
        && AttemptsMade(o, r, p, n, delay, Some(out), trace0, trace + [st], sleeps0, sleeps)
        && |ProviderSteps(o, r, p, 0, n)| == attempt + 1
  {
    var st := Step(CallFor(r, p, attempt), out);
    if Retryable(st, n) {
      AttemptLoopRetry(o, r, p, n, delay, attempt, local, last, trace0, trace, sleeps0, sleeps, st);
    } else {
      AttemptLoopDone(o, r, p, n, delay, attempt, local, last, trace0, trace, sleeps0, sleeps, st);
    }
  }

  lemma AttemptLoopRetry(o: Call -> Outcome, r: Route, p: string, n: int, delay: int, attempt: nat,
                         local: seq<Step>, last: Option<Outcome>,
                         trace0: seq<Step>, trace: seq<Step>, sleeps0: seq<int>, sleeps: seq<int>, st: Step)
    requires AttemptLoop(o, r, p, n, delay, attempt, local, last, trace0, trace, sleeps0, sleeps)
    requires attempt < n && st == Step(CallFor(r, p, attempt), o(CallFor(r, p, attempt))) && Retryable(st, n)
    ensures AttemptLoop(o, r, p, n, delay, attempt + 1, local + [st], Some(st.outcome),
                        trace0, trace + [st], sleeps0, sleeps + [Backoff(delay, attempt)])
  {
    assert ProviderSteps(o, r, p, attempt, n) == [st] + ProviderSteps(o, r, p, attempt + 1, n);
    AppendAssoc(local, [st], ProviderSteps(o, r, p, attempt + 1, n));
    AppendAssoc(trace0, local, [st]);
    AppendAssoc(sleeps0, Backoffs(delay, 0, attempt), [Backoff(delay, attempt)]);
    BackoffsSnoc(delay, 0, attempt);
  }

  lemma AttemptLoopDone(o: Call -> Outcome, r: Route, p: string, n: int, delay: int, attempt: nat,
                        local: seq<Step>, last: Option<Outcome>,
                        trace0: seq<Step>, trace: seq<Step>, sleeps0: seq<int>, sleeps: seq<int>, st: Step)
    requires AttemptLoop(o, r, p, n, delay, attempt, local, last, trace0, trace, sleeps0, sleeps)
    requires attempt < n && st == Step(CallFor(r, p, attempt), o(CallFor(r, p, attempt))) && !Retryable(st, n)
    ensures AttemptsMade(o, r, p, n, delay, Some(st.outcome), trace0, trace + [st], sleeps0, sleeps)
    ensures |ProviderSteps(o, r, p, 0, n)| == attempt + 1
  {
    assert ProviderSteps(o, r, p, attempt, n) == [st];
    AppendAssoc(trace0, local, [st]);
    var steps := local + [st];
    assert |steps| - 1 == attempt;
    ProviderSleeps(o, r, p, 0, n, delay);
  }

  /** The loop condition failed: no attempt was allowed at all. */
  lemma AttemptLoopExit(o: Call -> Outcome, r: Route, p: string, n: int, delay: int, attempt: nat,
                        local: seq<Step>, last: Option<Outcome>,
                        trace0: seq<Step>, trace: seq<Step>, sleeps0: seq<int>, sleeps: seq<int>)
    requires AttemptLoop(o, r, p, n, delay, attempt, local, last, trace0, trace, sleeps0, sleeps)
    requires attempt >= n
    ensures AttemptsMade(o, r, p, n, delay, last, trace0, trace, sleeps0, sleeps)
    ensures ProviderSteps(o, r, p, 0, n) == []
  {
    assert local == [] && ProviderSteps(o, r, p, 0, n) == [];
  }

  /**
   * The first attempt asked for a retry and the wait raised: the log holds
   * that attempt alone, no wait was made, and the provider had more
   * attempts to come.
   */
  lemma AttemptLoopRaise(o: Call -> Outcome, r: Route, p: string, n: int, delay: int,
                         local: seq<Step>, last: Option<Outcome>,
                         trace0: seq<Step>, trace: seq<Step>, sleeps0: seq<int>, sleeps: seq<int>, out: Outcome)
    requires AttemptLoop(o, r, p, n, delay, 0, local, last, trace0, trace, sleeps0, sleeps)
    requires 0 < n && out == o(CallFor(r, p, 0)) && Retryable(Step(CallFor(r, p, 0), out), n)
    ensures var steps := ProviderSteps(o, r, p, 0, n);
      |steps| >= 2 && trace + [Step(CallFor(r, p, 0), out)] == trace0 + steps[..1] && sleeps == sleeps0
  {
    var st := Step(CallFor(r, p, 0), out);
    ProviderStepsLength(o, r, p, 1, n);
    assert ProviderSteps(o, r, p, 0, n) == [st] + ProviderSteps(o, r, p, 1, n);
    assert trace == trace0 && Backoffs(delay, 0, 0) == [];
  }

  /** The provider that answered, if any attempt of `steps` did. */
  function Winner(steps: seq<Step>): (w: Option<string>)
    ensures w.Some? <==> Succeeded(steps)
  {
    if Succeeded(steps) then Some(steps[|steps| - 1].call.provider) else None
  }

  /**
   * The walk along `chain` after `i` providers, none of which answered:
   * `done` are their attempts, the attempts on the rest of the chain are
   * still to come, `lastError` is the latest failure, `bound` says whether
   * any attempt failed at all, and the log and the waits have grown by
   * `done` and its backoffs.
   */
  ghost predicate ChainLoop(o: Call -> Outcome, r: Route, chain: seq<string>, n: int, delay: int, i: nat,
                            done: seq<Step>, lastError: Option<string>, bound: bool,
                            trace0: seq<Step>, trace: seq<Step>, sleeps0: seq<int>, sleeps: seq<int>)
  {
    && i <= |chain|
    && ChainSteps(o, r, chain, n) == done + ChainSteps(o, r, chain[i..], n)
    && !Succeeded(done)
    && lastError == (if done == [] then None else Some(done[|done| - 1].outcome.message))
    && (bound <==> done != [])
    && (done == [] && i > 0 ==> |chain| == 1)
    && trace == trace0 + done
    && sleeps == sleeps0 + Sleeps(done, n, delay)
    && (delay < 0 ==> FirstRetry(done, n) == |done|)
  }

  /**
   * `chat` has returned or raised `res` after the attempts along `chain`,
   * logged with their backoffs. With a negative delay the first attempt
   * that asks for a retry ends it: `time.sleep` raises, and no wait is made.
   */
  ghost predicate ChatMade(o: Call -> Outcome, r: Route, chain: seq<string>, n: int, delay: int, res: ChatResult,
                           trace0: seq<Step>, trace: seq<Step>, sleeps0: seq<int>, sleeps: seq<int>)
  {
    var steps := ChainSteps(o, r, chain, n);
    if SleepRaises(steps, n, delay) then
      && res == Raised(SleepNegative)
      && trace == trace0 + steps[..FirstRetry(steps, n) + 1]
      && sleeps == sleeps0
    else
      && res == ChatResultOf(steps, |chain|)
      && trace == trace0 + steps
      && sleeps == sleeps0 + Sleeps(steps, n, delay)
  }

  /** The provider whose answer `chat` returns, if it returns one. */
  ghost function ChatWinner(o: Call -> Outcome, r: Route, chain: seq<string>, n: int, delay: int): Option<string>
  {
    var steps := ChainSteps(o, r, chain, n);
    if SleepRaises(steps, n, delay) then None else Winner(steps)
  }

  /** `achat` has returned or raised `res` after its attempts on `p`, logged with their backoffs. */
  ghost predicate AChatMade(o: Call -> Outcome, r: Route, p: string, n: int, delay: int, res: ChatResult,
                            trace0: seq<Step>, trace: seq<Step>, sleeps0: seq<int>, sleeps: seq<int>)
  {
    var steps := ProviderSteps(o, r, p, 0, n);
    && res == AChatResultOf(steps)
    && trace == trace0 + steps
    && sleeps == sleeps0 + Sleeps(steps, n, delay)
  }

  lemma ChainLoopStart(o: Call -> Outcome, r: Route, chain: seq<string>, n: int, delay: int,
                       trace: seq<Step>, sleeps: seq<int>)
    ensures ChainLoop(o, r, chain, n, delay, 0, [], None, false, trace, trace, sleeps, sleeps)
  {
    assert chain[0..] == chain && trace + [] == trace && sleeps + [] == sleeps;
  }

  /** Provider `chain[i]` answered: the walk ends with its reply, and it is the winner. */
  lemma ChainLoopAnswered(o: Call -> Outcome, r: Route, chain: seq<string>, n: int, delay: int, i: nat,
                          done: seq<Step>, lastError: Option<string>, bound: bool,
                          trace0: seq<Step>, trace: seq<Step>, sleeps0: seq<int>, sleeps: seq<int>,
                          last: Option<Outcome>, trace1: seq<Step>, sleeps1: seq<int>)
    requires ChainLoop(o, r, chain, n, delay, i, done, lastError, bound, trace0, trace, sleeps0, sleeps)
    requires i < |chain| && AttemptsMade(o, r, chain[i], n, delay, last, trace, trace1, sleeps, sleeps1)
    requires last.Some? && last.value.Ok?
    requires delay < 0 ==> |ProviderSteps(o, r, chain[i], 0, n)| <= 1
    ensures ChatMade(o, r, chain, n, delay, Replied(last.value.response), trace0, trace1, sleeps0, sleeps1)
    ensures ChatWinner(o, r, chain, n, delay) == Some(chain[i])
  {
    var local := ProviderSteps(o, r, chain[i], 0, n);
    var steps := done + local;
    AnsweredAt(o, r, chain, i, n, local);
    assert ChainSteps(o, r, chain, n) == steps;
    AnsweredLogs(trace0, done, local, trace1, sleeps0, sleeps1, n, delay);
    AnsweredBy(o, r, chain[i], n, done, local);
    NoRetryAppend(o, r, chain[i], n, delay, done);
    assert !SleepRaises(steps, n, delay);
    assert ChatResultOf(steps, |chain|) == Replied(last.value.response);
  }

  /**
   * With a negative delay, a provider with at most one attempt adds no retry
   * to attempts that had none.
   */
  lemma NoRetryAppend(o: Call -> Outcome, r: Route, p: string, n: int, delay: int, done: seq<Step>)
    requires delay < 0 ==> FirstRetry(done, n) == |done| && |ProviderSteps(o, r, p, 0, n)| <= 1
    ensures var steps := done + ProviderSteps(o, r, p, 0, n);
      !SleepRaises(steps, n, delay) && (delay < 0 ==> FirstRetry(steps, n) == |steps|)
  {
    if delay < 0 {
      ProviderStepsRetryFirst(o, r, p, n);
      FirstRetryAppend(done, ProviderSteps(o, r, p, 0, n), n);
    }
  }

  /** The logs after the answering provider's attempts hold everything tried. */
  lemma AnsweredLogs(trace0: seq<Step>, done: seq<Step>, local: seq<Step>, trace1: seq<Step>,
                     sleeps0: seq<int>, sleeps1: seq<int>, n: int, delay: int)
    requires trace1 == (trace0 + done) + local
    requires sleeps1 == (sleeps0 + Sleeps(done, n, delay)) + Sleeps(local, n, delay)
    ensures trace1 == trace0 + (done + local) && sleeps1 == sleeps0 + Sleeps(done + local, n, delay)
  {
    AppendAssoc(trace0, done, local);
    AppendAssoc(sleeps0, Sleeps(done, n, delay), Sleeps(local, n, delay));
    SleepsAppend(done, local, n, delay);
  }

  /** After failures elsewhere, provider `p`'s reply ends the walk, and `p` wins. */
  lemma AnsweredBy(o: Call -> Outcome, r: Route, p: string, n: int, done: seq<Step>, local: seq<Step>)
    requires local == ProviderSteps(o, r, p, 0, n) && Succeeded(local)
    ensures Succeeded(done + local) && Winner(done + local) == Some(p)
    ensures (done + local)[|done + local| - 1] == local[|local| - 1]
  {
    EndsLike(done, local);
    LastCallOn(o, r, p, 0, n);
  }

  /** When provider `chain[i]` answers, the rest of the walk is its attempts. */
  lemma AnsweredAt(o: Call -> Outcome, r: Route, chain: seq<string>, i: nat, n: int, local: seq<Step>)
    requires i < |chain| && local == ProviderSteps(o, r, chain[i], 0, n) && Succeeded(local)
    ensures ChainSteps(o, r, chain[i..], n) == local
  {
    assert chain[i..][0] == chain[i];
  }

  lemma AppendAssoc<T>(a: seq<T>, b: seq<T>, c: seq<T>)
    ensures (a + b) + c == a + (b + c)
  {
  }

  /** A non-empty tail decides the last step. */
  lemma EndsLike(done: seq<Step>, local: seq<Step>)
    requires local != []
    ensures (done + local)[|done + local| - 1] == local[|local| - 1]
  {
  }

  /** The attempts on `p` are calls to `p`; in particular the last one is. */
  lemma {:induction false} LastCallOn(o: Call -> Outcome, r: Route, p: string, k: nat, n: int)
    ensures var s := ProviderSteps(o, r, p, k, n);
      s != [] ==> s[|s| - 1].call.provider == p
    decreases n - k
  {
    if k < n {
      var c := CallFor(r, p, k);
      if Retryable(Step(c, o(c)), n) {
        LastCallOn(o, r, p, k + 1, n);
      }
    }
  }

  /**
   * Provider `chain[i]` never answered, and the walk goes on (some attempt
   * failed, or it was the last provider): the walk resumes at `chain[i + 1]`.
   */
  lemma ChainLoopNext(o: Call -> Outcome, r: Route, chain: seq<string>, n: int, delay: int, i: nat,
                      done: seq<Step>, lastError: Option<string>, bound: bool,
                      trace0: seq<Step>, trace: seq<Step>, sleeps0: seq<int>, sleeps: seq<int>,
                      last: Option<Outcome>, trace1: seq<Step>, sleeps1: seq<int>)
    requires ChainLoop(o, r, chain, n, delay, i, done, lastError, bound, trace0, trace, sleeps0, sleeps)
    requires i < |chain| && AttemptsMade(o, r, chain[i], n, delay, last, trace, trace1, sleeps, sleeps1)
    requires !(last.Some? && last.value.Ok?)
    requires Distinct(chain) && (bound || last.Some? || chain[i] == chain[|chain| - 1])
    requires delay < 0 ==> |ProviderSteps(o, r, chain[i], 0, n)| <= 1
    ensures ChainLoop(o, r, chain, n, delay, i + 1, done + ProviderSteps(o, r, chain[i], 0, n),
                      if last.Some? then Some(last.value.message) else lastError, bound || last.Some?,
                      trace0, trace1, sleeps0, sleeps1)
  {
    var local := ProviderSteps(o, r, chain[i], 0, n);
    var done1 := done + local;
    var rest := ChainSteps(o, r, chain[i + 1..], n);
    assert ChainSteps(o, r, chain, n) == done1 + rest by {
      assert chain[i..][0] == chain[i] && chain[i..][1..] == chain[i + 1..];
      assert ChainSteps(o, r, chain[i..], n) == local + rest;
      AppendAssoc(done, local, rest);
    }
    assert !Succeeded(done1) && (if last.Some? then Some(last.value.message) else lastError)
      == (if done1 == [] then None else Some(done1[|done1| - 1].outcome.message)) by {
      if local == [] {
        assert done1 == done;
      } else {
        assert done1[|done1| - 1] == local[|local| - 1];
      }
    }
    assert (bound || last.Some? <==> done1 != []);
    assert done1 == [] ==> |chain| == 1 by {
      if done1 == [] {
        assert chain[i] == chain[|chain| - 1];
        assert i == |chain| - 1;
      }
    }
    assert trace1 == trace0 + done1 by {
      AppendAssoc(trace0, done, local);
    }
    assert sleeps1 == sleeps0 + Sleeps(done1, n, delay) by {
      SleepsAppend(done, local, n, delay);
      AppendAssoc(sleeps0, Sleeps(done, n, delay), Sleeps(local, n, delay));
    }
    NoRetryAppend(o, r, chain[i], n, delay, done);
  }

  /**
   * The first provider never attempted anything and is not the last one:
   * the fallback message's `sys` is unbound, and nothing was tried.
   */
  lemma ChainLoopUnbound(o: Call -> Outcome, r: Route, chain: seq<string>, n: int, delay: int, i: nat,
                         done: seq<Step>, lastError: Option<string>, bound: bool,
                         trace0: seq<Step>, trace: seq<Step>, sleeps0: seq<int>, sleeps: seq<int>,
                         last: Option<Outcome>, trace1: seq<Step>, sleeps1: seq<int>)
    requires ChainLoop(o, r, chain, n, delay, i, done, lastError, bound, trace0, trace, sleeps0, sleeps)
    requires i < |chain| && AttemptsMade(o, r, chain[i], n, delay, last, trace, trace1, sleeps, sleeps1)
    requires last.None? && !bound && chain[i] != chain[|chain| - 1]
    ensures ChatMade(o, r, chain, n, delay, RaisedUnbound, trace0, trace1, sleeps0, sleeps1)
    ensures ChatWinner(o, r, chain, n, delay) == None
  {
    ProviderStepsLength(o, r, chain[i], 0, n);
    NoAttemptsNoSteps(o, r, chain, n);
  }

  /**
   * After provider `chain[i]`'s attempts the walk stops with its reply,
   * stops on the unbound `sys` when nothing was ever tried and providers
   * remain, or goes on at `chain[i + 1]`.
   */
  lemma ChainLoopAfter(o: Call -> Outcome, r: Route, chain: seq<string>, n: int, delay: int, i: nat,
                       done: seq<Step>, lastError: Option<string>, bound: bool,
                       trace0: seq<Step>, trace: seq<Step>, sleeps0: seq<int>, sleeps: seq<int>,
                       last: Option<Outcome>, trace1: seq<Step>, sleeps1: seq<int>)
    requires ChainLoop(o, r, chain, n, delay, i, done, lastError, bound, trace0, trace, sleeps0, sleeps)
    requires i < |chain| && AttemptsMade(o, r, chain[i], n, delay, last, trace, trace1, sleeps, sleeps1)
    requires Distinct(chain)
    requires delay < 0 ==> |ProviderSteps(o, r, chain[i], 0, n)| <= 1
    ensures last.Some? && last.value.Ok? ==>
      && ChatMade(o, r, chain, n, delay, Replied(last.value.response), trace0, trace1, sleeps0, sleeps1)
      && ChatWinner(o, r, chain, n, delay) == Some(chain[i])
    ensures last.None? && !bound && chain[i] != chain[|chain| - 1] ==>
      && ChatMade(o, r, chain, n, delay, RaisedUnbound, trace0, trace1, sleeps0, sleeps1)
      && ChatWinner(o, r, chain, n, delay) == None
    ensures !(last.Some? && last.value.Ok?) && (bound || last.Some? || chain[i] == chain[|chain| - 1]) ==>
      ChainLoop(o, r, chain, n, delay, i + 1, done + ProviderSteps(o, r, chain[i], 0, n),
                if last.Some? then Some(last.value.message) else lastError, bound || last.Some?,
                trace0, trace1, sleeps0, sleeps1)
  {
    if last.Some? && last.value.Ok? {
      ChainLoopAnswered(o, r, chain, n, delay, i, done, lastError, bound, trace0, trace, sleeps0, sleeps, last, trace1, sleeps1);
    } else if last.None? && !bound && chain[i] != chain[|chain| - 1] {
      ChainLoopUnbound(o, r, chain, n, delay, i, done, lastError, bound, trace0, trace, sleeps0, sleeps, last, trace1, sleeps1);
    } else {
      ChainLoopNext(o, r, chain, n, delay, i, done, lastError, bound, trace0, trace, sleeps0, sleeps, last, trace1, sleeps1);
    }
  }

  /** Every provider failed: `chat` raises the last error, or `None` when nothing was tried. */
  lemma ChainLoopExit(o: Call -> Outcome, r: Route, chain: seq<string>, n: int, delay: int, i: nat,
                      done: seq<Step>, lastError: Option<string>, bound: bool,
                      trace0: seq<Step>, trace: seq<Step>, sleeps0: seq<int>, sleeps: seq<int>)
    requires ChainLoop(o, r, chain, n, delay, i, done, lastError, bound, trace0, trace, sleeps0, sleeps)
    requires i >= |chain|
    ensures ChatMade(o, r, chain, n, delay, if lastError.None? then RaisedNone else Raised(lastError.value),
                     trace0, trace, sleeps0, sleeps)
    ensures ChatWinner(o, r, chain, n, delay) == None
  {
    assert chain[i..] == [];
    assert ChainSteps(o, r, chain, n) == done;
  }

  /**
   * Provider `chain[i]`'s first attempt asked for a retry and the negative
   * wait raised: `chat` raises the ValueError, having logged the attempts
   * so far and that one, with no wait and no winner.
   */
  lemma ChainLoopSleepRaised(o: Call -> Outcome, r: Route, chain: seq<string>, n: int, delay: int, i: nat,
                             done: seq<Step>, lastError: Option<string>, bound: bool,
                             trace0: seq<Step>, trace: seq<Step>, sleeps0: seq<int>, sleeps: seq<int>,
                             trace1: seq<Step>, sleeps1: seq<int>)
    requires ChainLoop(o, r, chain, n, delay, i, done, lastError, bound, trace0, trace, sleeps0, sleeps)
    requires i < |chain| && delay < 0
    requires var local := ProviderSteps(o, r, chain[i], 0, n);
      |local| >= 2 && trace1 == trace + local[..1] && sleeps1 == sleeps
    ensures ChatMade(o, r, chain, n, delay, Raised(SleepNegative), trace0, trace1, sleeps0, sleeps1)
    ensures ChatWinner(o, r, chain, n, delay) == None
  {
    var local := ProviderSteps(o, r, chain[i], 0, n);
    var rest := ChainSteps(o, r, chain[i..], n);
    assert rest != [] && rest[0] == local[0] by {
      assert chain[i..][0] == chain[i];
    }
    ProviderStepsRetryFirst(o, r, chain[i], n);
    assert FirstRetry(rest, n) == 0;
    FirstRetryAppend(done, rest, n);
    var steps := done + rest;
    assert steps[..|done| + 1] == done + local[..1];
    SleepsNoRetry(done, n, delay);
    AppendAssoc(trace0, done, local[..1]);
  }

  /** The provider answers of the worked run below. */
  function ScenarioOracle(resp: Response): Call -> Outcome
  {
    (c: Call) => if c.provider == "A" then Fail("timeout") else if c.provider == "B" then Fail("404") else Ok(resp)
  }

  lemma ScenarioA(r: Route, resp: Response)
    ensures ProviderSteps(ScenarioOracle(resp), r, "A", 0, 2) ==
      [Step(CallFor(r, "A", 0), Fail("timeout")), Step(CallFor(r, "A", 1), Fail("timeout"))]
  {
    NoMarkerCharNotFatal("timeout");
    assert ProviderSteps(ScenarioOracle(resp), r, "A", 1, 2) == [Step(CallFor(r, "A", 1), Fail("timeout"))];
  }

  lemma ScenarioB(r: Route, resp: Response)
    ensures ProviderSteps(ScenarioOracle(resp), r, "B", 0, 2) == [Step(CallFor(r, "B", 0), Fail("404"))]
  {
    Fatal404();
  }

  lemma ScenarioC(r: Route, resp: Response)
    ensures ChainSteps(ScenarioOracle(resp), r, ["C"], 2) == [Step(CallFor(r, "C", 0), Ok(resp))]
  {
    assert ProviderSteps(ScenarioOracle(resp), r, "C", 0, 2) == [Step(CallFor(r, "C", 0), Ok(resp))];
  }

  lemma ScenarioChain(r: Route, resp: Response)
    ensures ChainSteps(ScenarioOracle(resp), r, ["A", "B", "C"], 2) ==
      [Step(CallFor(r, "A", 0), Fail("timeout")), Step(CallFor(r, "A", 1), Fail("timeout")),
       Step(CallFor(r, "B", 0), Fail("404")), Step(CallFor(r, "C", 0), Ok(resp))]
  {
    var o, chain := ScenarioOracle(resp), ["A", "B", "C"];
    var pa := ProviderSteps(o, r, "A", 0, 2);
    ScenarioA(r, resp);
    ScenarioBC(r, resp);
    assert chain[1..] == ["B", "C"];
    assert !Succeeded(pa);
    assert ChainSteps(o, r, chain, 2) == pa + ChainSteps(o, r, ["B", "C"], 2);
  }

  lemma ScenarioBC(r: Route, resp: Response)
    ensures ChainSteps(ScenarioOracle(resp), r, ["B", "C"], 2) ==
      [Step(CallFor(r, "B", 0), Fail("404")), Step(CallFor(r, "C", 0), Ok(resp))]
  {
    ScenarioB(r, resp);
    ScenarioC(r, resp);
    assert ["B", "C"][1..] == ["C"];
  }

  /** The run waits once, for the base delay, between A's two attempts. */
  lemma ScenarioSleeps(r: Route, delay: int, resp: Response)
    ensures Sleeps(ChainSteps(ScenarioOracle(resp), r, ["A", "B", "C"], 2), 2, delay) == [delay]
  {
    var o := ScenarioOracle(resp);
    var pa, pb, pc := ProviderSteps(o, r, "A", 0, 2), ProviderSteps(o, r, "B", 0, 2), ProviderSteps(o, r, "C", 0, 2);
    ScenarioA(r, resp);
    ScenarioB(r, resp);
    ScenarioC(r, resp);
    ScenarioChain(r, resp);
    assert ChainSteps(o, r, ["A", "B", "C"], 2) == pa + (pb + [Step(CallFor(r, "C", 0), Ok(resp))]);
    assert pc == [Step(CallFor(r, "C", 0), Ok(resp))];
    SleepsAppend(pa, pb + pc, 2, delay);
    SleepsAppend(pb, pc, 2, delay);
    ProviderSleeps(o, r, "A", 0, 2, delay);
    ProviderSleeps(o, r, "B", 0, 2, delay);
    ProviderSleeps(o, r, "C", 0, 2, delay);
    assert Backoffs(delay, 0, 1) == [Backoff(delay, 0)];
  }

  lemma Fatal404()
    ensures IsFatal("404")
  {
    assert Lower("404") == "404" == FatalMarkers[0];
    FatalAnywhere("", "404", "");
  }

  /**
   * A worked run: chain [A, B, C], two attempts each, A failing transiently,
   * B failing with a 404 and C answering. A is tried twice with one wait of
   * the base delay in between, B once, C once, and the reply is C's.
   */
  lemma FallbackScenario(r: Route, delay: int, resp: Response)
    ensures var s := ChainSteps(ScenarioOracle(resp), r, ["A", "B", "C"], 2);
      |s| == 4 &&
      s[0].call.provider == "A" && s[1].call.provider == "A" && s[1].call.attempt == 1 &&
      s[2].call.provider == "B" && s[3].call.provider == "C" &&
      Sleeps(s, 2, delay) == [delay] &&
      ChatResultOf(s, 3) == Replied(resp)
  {
    ScenarioChain(r, resp);
    ScenarioSleeps(r, delay, resp);
  }
}
