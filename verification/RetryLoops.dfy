/** The two HTTP retry loops: webhook delivery and the connect request. The answer
    to every attempt is an input; time is the sum of the delays slept. */
module RetryLoops {
  import opened Options
  import opened Powers

  /** The fate of one attempt. Broken is any exception that is neither a status nor a transport error. */
  datatype Answer = Status(code: int) | TransportError | Broken

  predicate Success(a: Answer) { a.Status? && 200 <= a.code <= 299 }

  /** Worth another attempt. */
  predicate Retryable(a: Answer) { a.TransportError? || (a.Status? && a.code >= 500) }

  /** A transport error or a status from 500 on. */
  ghost predicate FailedFor5xx(a: Answer) { a == TransportError || (a.Status? && a.code >= 500) }

  datatype Outcome =
    | Returned(answer: Option<Answer>)     // None: returned without having sent anything
    | Raised(cause: Option<Answer>)        // None: raised without having sent anything
    | Overflow                             // the delay does not fit a float

  /** `2.0 ** 1024` raises. */
  const MAX_EXPONENT: nat := 1023

  /** The delay after an attempt, in seconds. */
  function Delay(attempt: nat): Option<nat>
    requires attempt >= 1
  {
    if attempt - 1 > MAX_EXPONENT then None else Some(Pow2(attempt - 1))
  }

  /** Exactly the first f of n attempts are retryable failures. */
  ghost predicate Failures(answers: nat -> Answer, n: nat, f: nat) {
    f <= n && (forall i: nat :: i < f ==> Retryable(answers(i))) && (f < n ==> !Retryable(answers(f)))
  }

  function Attempts(maxRetries: int): nat { if maxRetries < 0 then 0 else maxRetries }

  function Min(a: int, b: int): int { if a < b then a else b }

  /** Outcome of an attempt that ends the loop. */
  function Decided(a: Answer): Outcome { if Success(a) then Returned(Some(a)) else Raised(Some(a)) }

  /** After k retryable failures, the next answer decides: either the count is k, or it is more. */
  lemma FailuresDecided(answers: nat -> Answer, n: nat, k: nat)
    requires k < n && forall i: nat :: i < k ==> Retryable(answers(i))
    ensures forall f: nat :: Failures(answers, n, f) ==> (if Retryable(answers(k)) then f > k else f == k)
  {
  }

  lemma FailuresAll(answers: nat -> Answer, n: nat, k: nat)
    requires k == n && forall i: nat :: i < k ==> Retryable(answers(i))
    ensures forall f: nat :: Failures(answers, n, f) ==> f == k
  {
  }

  /** The count exists and is unique, so the contracts of the two loops speak of every sequence of answers. */
  lemma {:induction false} FailuresExist(answers: nat -> Answer, n: nat)
    ensures exists f: nat :: Failures(answers, n, f) && forall g: nat :: Failures(answers, n, g) ==> g == f
    decreases n
  {
    if n == 0 {
      assert Failures(answers, 0, 0);
    } else {
      FailuresExist(answers, n - 1);
      var f: nat :| Failures(answers, n - 1, f);
      if f < n - 1 || !Retryable(answers(f)) {
        assert Failures(answers, n, f);
        FailuresDecided(answers, n, f);
      } else {
        assert Failures(answers, n, n);
        FailuresAll(answers, n, n);
      }
    }
  }

  /** The first f answers can be retried; the next, if there is one, cannot. */
  lemma FailureAt(answers: nat -> Answer, n: nat, f: nat, k: nat)
    requires Failures(answers, n, f) && k <= f && k < n
    ensures Retryable(answers(k)) <==> k < f
  {
  }

  /** What the webhook loop does when exactly f of at most n attempts fail first: it sleeps after every
      failure, the last one included; it raises the last failure, or returns silently without attempts. */
  ghost predicate WebhookLaw(answers: nat -> Answer, n: nat, f: nat, outcome: Outcome, posts: nat, slept: nat)
    requires f <= n
  {
    if f <= 1024 then
      && slept == Pow2(f) - 1
      && posts == Min(f + 1, n)
      && outcome == (if f < n then Decided(answers(f)) else if f == 0 then Returned(None)
           else Raised(Some(answers(f - 1))))
    else outcome == Overflow && posts == 1025 && slept == Pow2(1024) - 1
  }

  /** `_post_with_retry`. */
  method PostWithRetry(answers: nat -> Answer, maxRetries: int)
    returns (outcome: Outcome, posts: nat, slept: nat, ghost f: nat)
    ensures posts <= Attempts(maxRetries)
    ensures Failures(answers, Attempts(maxRetries), f)
    ensures forall i: nat :: i + 1 < posts ==> FailedFor5xx(answers(i))
    ensures outcome.Returned? && outcome.answer.Some? ==>
      outcome.answer.value.Status? && 200 <= outcome.answer.value.code <= 299
    ensures outcome.Raised? && outcome.cause.Some? && outcome.cause.value.Status? ==>
      !(200 <= outcome.cause.value.code <= 299) && (outcome.cause.value.code >= 500 ==> posts == maxRetries)
    ensures WebhookLaw(answers, Attempts(maxRetries), f, outcome, posts, slept)
  {
    ghost var n := Attempts(maxRetries);
    FailuresExist(answers, n);
    f :| Failures(answers, n, f);
    assert f <= n;
    hide Pow2, Failures;
    var lastExc: Option<Answer> := None;
    var attempt := 1;
    posts, slept := 0, 0;
    PowSteps(0);
    while attempt <= maxRetries
      invariant 1 <= attempt <= n + 1 && attempt - 1 <= f && posts == attempt - 1 <= MAX_EXPONENT + 1
      invariant slept == Pow2(attempt - 1) - 1
      invariant lastExc == if attempt == 1 then None else Some(answers(attempt - 2))
      invariant forall i: nat :: i < attempt - 1 ==> FailedFor5xx(answers(i))
    {
      var answer := answers(attempt - 1);
      posts := posts + 1;
      FailureAt(answers, n, f, attempt - 1);
      if Success(answer) { return Returned(Some(answer)), posts, slept, f; }
      if answer == Broken { return Raised(Some(answer)), posts, slept, f; }
      lastExc := Some(answer);
      if answer.Status? && answer.code < 500 { return Raised(Some(answer)), posts, slept, f; }
      var delay := Delay(attempt);
      if delay.None? { return Overflow, posts, slept, f; }
      PowSteps(attempt - 1);
      slept := slept + delay.value;
      attempt := attempt + 1;
    }
    outcome := if lastExc.Some? then Raised(lastExc) else Returned(None);
  }

  /** What the connect loop does: the same posts, no sleep after the last attempt, and always an exception in
      the end, also without attempts. */
  ghost predicate ConnectLaw(answers: nat -> Answer, n: nat, f: nat, outcome: Outcome, posts: nat, slept: nat)
    requires f <= n
  {
    if Min(f, n - 1) <= 1024 then
      && slept == (if f == 0 then 0 else Pow2(Min(f, n - 1)) - 1)
      && posts == Min(f + 1, n)
      && outcome == (if f < n then Decided(answers(f)) else Raised(if f == 0 then None else Some(answers(f - 1))))
    else outcome == Overflow && posts == 1025 && slept == Pow2(1024) - 1
  }

  /** `_post_connect`. */
  method PostConnect(answers: nat -> Answer, maxRetries: int)
    returns (outcome: Outcome, posts: nat, slept: nat, ghost f: nat)
    ensures posts <= Attempts(maxRetries)
    ensures Failures(answers, Attempts(maxRetries), f)
    ensures forall i: nat :: i + 1 < posts ==> FailedFor5xx(answers(i))
    ensures outcome.Returned? && outcome.answer.Some? ==>
      outcome.answer.value.Status? && 200 <= outcome.answer.value.code <= 299
    ensures outcome.Raised? && outcome.cause.Some? && outcome.cause.value.Status? ==>
      !(200 <= outcome.cause.value.code <= 299) && (outcome.cause.value.code >= 500 ==> posts == maxRetries)
    ensures ConnectLaw(answers, Attempts(maxRetries), f, outcome, posts, slept)
  {
    ghost var n := Attempts(maxRetries);
    FailuresExist(answers, n);
    f :| Failures(answers, n, f);
    assert f <= n;
    hide Pow2, Failures;
    var lastExc: Option<Answer> := None;
    var attempt := 1;
    posts, slept := 0, 0;
    PowSteps(0);
    while attempt <= maxRetries
      invariant 1 <= attempt <= n + 1 && attempt - 1 <= f && posts == attempt - 1
      invariant Min(attempt - 1, maxRetries - 1) <= MAX_EXPONENT + 1
      invariant slept == if attempt == 1 then 0 else Pow2(Min(attempt - 1, maxRetries - 1)) - 1
      invariant lastExc == if attempt == 1 then None else Some(answers(attempt - 2))
      invariant forall i: nat :: i < attempt - 1 ==> FailedFor5xx(answers(i))
    {
      var answer := answers(attempt - 1);
      posts := posts + 1;
      FailureAt(answers, n, f, attempt - 1);
      if Success(answer) { return Returned(Some(answer)), posts, slept, f; }
      if answer == Broken || (answer.Status? && answer.code < 500) { return Raised(Some(answer)), posts, slept, f; }
      lastExc := Some(answer);
      if attempt < maxRetries {
        var delay := Delay(attempt);
        if delay.None? { return Overflow, posts, slept, f; }
        PowSteps(attempt - 1);
        slept := slept + delay.value;
      }
      attempt := attempt + 1;
    }
    outcome := Raised(lastExc);
  }
}
