// The open-and-wait loop SampleReadyToProcess runs before a raw file is
// read: up to ten opens, a wait on the stop event after each permission
// failure, and the result with the numbers of opens and waits.

module Retry {
  import opened Basics

  /** What one `open(path, "rb")` gives. */
  datatype Access = Opened | PermissionDenied | NotFound

  const MaxRetries: nat := 10

  /** How the loop ends, with the number of opens and of waits it made. */
  datatype Trail = Trail(result: Result<bool>, opens: nat, waits: nat)

  /** One scripted answer for each of the at most ten opens and waits. */
  predicate Scripted(outcome: seq<Access>, stopFires: seq<bool>)
  {
    |outcome| == MaxRetries && |stopFires| == MaxRetries
  }

  /**
   * The retry loop from attempt k on: the result, the number of opens and the
   * number of waits. `outcome[k]` is the k-th open, `stopFires[k]` the k-th
   * wait's answer; without a stop event the first wait raises AttributeError.
   */
  function Attempts(k: nat, outcome: seq<Access>, stopFires: seq<bool>, hasStopEvent: bool): (r: Trail)
    requires Scripted(outcome, stopFires)
    requires k < MaxRetries
    decreases MaxRetries - k
  {
    match outcome[k]
    case Opened => Trail(Ok(true), 1, 0)
    case NotFound => Trail(Ok(false), 1, 0)
    case PermissionDenied =>
      if k + 1 >= MaxRetries then Trail(Ok(false), 1, 0)
      else if !hasStopEvent then Trail(Err(AttributeError), 1, 0)
      else if stopFires[k] then Trail(Ok(false), 1, 1)
      else
        var t := Attempts(k + 1, outcome, stopFires, hasStopEvent);
        Trail(t.result, t.opens + 1, t.waits + 1)
  }

  /**
   * The loop opens at least once and at most once per remaining attempt,
   * waits no more often than it opens and less often than the remaining
   * attempts, goes on only past permission failures, and answers true only
   * right after an open.
   */
  lemma {:induction false} AttemptsTrail(k: nat, outcome: seq<Access>, stopFires: seq<bool>, hasStopEvent: bool)
    requires Scripted(outcome, stopFires)
    requires k < MaxRetries
    ensures var r := Attempts(k, outcome, stopFires, hasStopEvent);
      && 1 <= r.opens <= MaxRetries - k && r.waits <= r.opens && r.waits < MaxRetries - k
      && (r.result == Ok(true) ==> outcome[k + r.opens - 1] == Opened)
      && forall j :: k <= j < k + r.opens - 1 ==> outcome[j] == PermissionDenied
    decreases MaxRetries - k
  {
    if outcome[k] == PermissionDenied && k + 1 < MaxRetries && hasStopEvent && !stopFires[k] {
      AttemptsTrail(k + 1, outcome, stopFires, hasStopEvent);
      AttemptsRetry(k, outcome, stopFires, hasStopEvent);
      var t := Attempts(k + 1, outcome, stopFires, hasStopEvent);
      forall j | k <= j < k + t.opens ensures outcome[j] == PermissionDenied {
        if j > k {
          assert k + 1 <= j < k + 1 + t.opens - 1;
        }
      }
    } else {
      AttemptsStop(k, outcome, stopFires, hasStopEvent);
    }
  }

  /** Every attempt but a retry ends the loop after one open. */
  lemma AttemptsStop(k: nat, outcome: seq<Access>, stopFires: seq<bool>, hasStopEvent: bool)
    requires Scripted(outcome, stopFires)
    requires k < MaxRetries
    ensures outcome[k] == Opened ==> Attempts(k, outcome, stopFires, hasStopEvent) == Trail(Ok(true), 1, 0)
    ensures outcome[k] == NotFound ==> Attempts(k, outcome, stopFires, hasStopEvent) == Trail(Ok(false), 1, 0)
    ensures outcome[k] == PermissionDenied && k + 1 >= MaxRetries ==>
      Attempts(k, outcome, stopFires, hasStopEvent) == Trail(Ok(false), 1, 0)
    ensures outcome[k] == PermissionDenied && k + 1 < MaxRetries && !hasStopEvent ==>
      Attempts(k, outcome, stopFires, hasStopEvent) == Trail(Err(AttributeError), 1, 0)
    ensures outcome[k] == PermissionDenied && k + 1 < MaxRetries && hasStopEvent && stopFires[k] ==>
      Attempts(k, outcome, stopFires, hasStopEvent) == Trail(Ok(false), 1, 1)
  {
  }

  /** Ten permission failures in a row end the loop with false after nine waits. */
  lemma {:induction false} TenFailuresGiveUp(k: nat, outcome: seq<Access>, stopFires: seq<bool>)
    requires Scripted(outcome, stopFires)
    requires k < MaxRetries
    requires forall j :: k <= j < MaxRetries ==> outcome[j] == PermissionDenied
    requires forall j :: k <= j < MaxRetries ==> !stopFires[j]
    ensures Attempts(k, outcome, stopFires, true) == Trail(Ok(false), MaxRetries - k, MaxRetries - 1 - k)
    decreases MaxRetries - k
  {
    if k + 1 < MaxRetries {
      TenFailuresGiveUp(k + 1, outcome, stopFires);
    }
  }

  /** A permission failure with no stop event raises instead of waiting. */
  lemma MissingStopEventRaises(k: nat, outcome: seq<Access>, stopFires: seq<bool>)
    requires Scripted(outcome, stopFires)
    requires k + 1 < MaxRetries && outcome[k] == PermissionDenied
    ensures Attempts(k, outcome, stopFires, false).result == Err(AttributeError)
  {
  }

  /** One more permission failure without a stop: one more open and one more wait. */
  lemma AttemptsRetry(k: nat, outcome: seq<Access>, stopFires: seq<bool>, hasStopEvent: bool)
    requires Scripted(outcome, stopFires)
    requires k + 1 < MaxRetries && outcome[k] == PermissionDenied && hasStopEvent && !stopFires[k]
    ensures var t := Attempts(k + 1, outcome, stopFires, hasStopEvent);
      Attempts(k, outcome, stopFires, hasStopEvent) == Trail(t.result, t.opens + 1, t.waits + 1)
  {
  }

  /** After k permission failures that each waited without a stop, the loop is where attempt k leaves it. */
  lemma {:induction false} AttemptsAfterRetries(k: nat, outcome: seq<Access>, stopFires: seq<bool>, hasStopEvent: bool)
    requires Scripted(outcome, stopFires)
    requires k < MaxRetries && (k > 0 ==> hasStopEvent)
    requires forall j :: 0 <= j < k ==> outcome[j] == PermissionDenied && !stopFires[j]
    ensures var t := Attempts(k, outcome, stopFires, hasStopEvent);
      Attempts(0, outcome, stopFires, hasStopEvent) == Trail(t.result, t.opens + k, t.waits + k)
    decreases k
  {
    var t := Attempts(k, outcome, stopFires, hasStopEvent);
    if k > 0 {
      AttemptsAfterRetries(k - 1, outcome, stopFires, hasStopEvent);
      AttemptsRetry(k - 1, outcome, stopFires, hasStopEvent);
      var u := Attempts(k - 1, outcome, stopFires, hasStopEvent);
      assert u == Trail(t.result, t.opens + 1, t.waits + 1);
    } else {
      assert t == Trail(t.result, t.opens + 0, t.waits + 0);
    }
  }

  /** How the whole loop ends when attempt k, after k retries, does not retry. */
  lemma AttemptsEnd(k: nat, outcome: seq<Access>, stopFires: seq<bool>, hasStopEvent: bool)
    requires Scripted(outcome, stopFires)
    requires k < MaxRetries && (k > 0 ==> hasStopEvent)
    requires forall j :: 0 <= j < k ==> outcome[j] == PermissionDenied && !stopFires[j]
    ensures outcome[k] == Opened ==> Attempts(0, outcome, stopFires, hasStopEvent) == Trail(Ok(true), k + 1, k)
    ensures outcome[k] == NotFound ==> Attempts(0, outcome, stopFires, hasStopEvent) == Trail(Ok(false), k + 1, k)
    ensures outcome[k] == PermissionDenied && k + 1 >= MaxRetries ==>
      Attempts(0, outcome, stopFires, hasStopEvent) == Trail(Ok(false), k + 1, k)
    ensures outcome[k] == PermissionDenied && k + 1 < MaxRetries && !hasStopEvent ==>
      Attempts(0, outcome, stopFires, hasStopEvent) == Trail(Err(AttributeError), k + 1, k)
    ensures outcome[k] == PermissionDenied && k + 1 < MaxRetries && hasStopEvent && stopFires[k] ==>
      Attempts(0, outcome, stopFires, hasStopEvent) == Trail(Ok(false), k + 1, k + 1)
  {
    AttemptsAfterRetries(k, outcome, stopFires, hasStopEvent);
    AttemptsStop(k, outcome, stopFires, hasStopEvent);
  }

  /** The open-and-wait loop of SampleReadyToProcess. */
  method WaitUntilReadable(outcome: seq<Access>, stopFires: seq<bool>, hasStopEvent: bool)
    returns (r: Result<bool>, opens: nat, waits: nat)
    requires Scripted(outcome, stopFires)
    ensures Trail(r, opens, waits) == Attempts(0, outcome, stopFires, hasStopEvent)
  {
    var retryCount := 0;
    var notCopied := true;
    opens, waits := 0, 0;
    while notCopied && retryCount < MaxRetries
      invariant 0 <= retryCount < MaxRetries
      invariant opens == retryCount + (if notCopied then 0 else 1) && waits == retryCount
      invariant retryCount > 0 ==> hasStopEvent
      invariant forall j :: 0 <= j < retryCount ==> outcome[j] == PermissionDenied && !stopFires[j]
      invariant !notCopied ==> outcome[retryCount] == Opened
      decreases MaxRetries - retryCount, notCopied
    {
      opens := opens + 1;
      var access := outcome[retryCount];
      if access == Opened {
        notCopied := false;
      } else if access == NotFound {
        AttemptsEnd(retryCount, outcome, stopFires, hasStopEvent);
        return Ok(false), opens, waits;
      } else {
        retryCount := retryCount + 1;
        if retryCount >= MaxRetries {
          AttemptsEnd(retryCount - 1, outcome, stopFires, hasStopEvent);
          return Ok(false), opens, waits;
        }
        if !hasStopEvent {
          AttemptsEnd(retryCount - 1, outcome, stopFires, hasStopEvent);
          return Err(AttributeError), opens, waits;
        }
        waits := waits + 1;
        if stopFires[retryCount - 1] {
          AttemptsEnd(retryCount - 1, outcome, stopFires, hasStopEvent);
          return Ok(false), opens, waits;
        }
      }
    }
    AttemptsEnd(retryCount, outcome, stopFires, hasStopEvent);
    r := Ok(true);
  }
}
