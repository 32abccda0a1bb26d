/** The retry loop of the tool runner and its call budget (src/ap_agent/tools/base.py). */
module ToolRunner {
  import opened Prelude
  import Protocol

  /** One attempt's end. A response that fails validation counts as a permanent failure, and a timeout is
      one kind of transient failure. */
  datatype Response<T> = Answered(value: T) | TimedOut | TransientFailure | PermanentFailure
  {
    predicate Settles() {
      Answered? || PermanentFailure?
    }
  }

  datatype ToolOutcome = Success | Timeout | TransientError | PermanentError | Denied

  datatype Result<T> = Result(outcome: ToolOutcome, attempts: nat, value: Option<T>)

  /** The first of the first `n` attempts that settles the call. */
  function FirstSettled<T>(responses: nat -> Response<T>, n: nat): (first: Option<nat>)
    ensures first.Some? ==>
      first.value < n && responses(first.value).Settles() &&
      forall j :: 0 <= j < first.value ==> !responses(j).Settles()
    ensures first.None? ==> forall j :: 0 <= j < n ==> !responses(j).Settles()
  {
    if n == 0 then None
    else
      var before := FirstSettled(responses, n - 1);
      if before.Some? then before
      else if responses(n - 1).Settles() then Some(n - 1)
      else None
  }

  function Remaining(ceiling: nat, used: nat): nat {
    if used <= ceiling then ceiling - used else 0
  }

  function Within(allowed: nat, remaining: nat): nat {
    if allowed <= remaining then allowed else remaining
  }

  /** The simple form: the first success or permanent failure within the attempts allowed and the budget
      left; otherwise the class of the last attempt, if all of them ran; otherwise a denial. */
  function Simple<T>(allowed: nat, remaining: nat, responses: nat -> Response<T>): Result<T> {
    var first := FirstSettled(responses, Within(allowed, remaining));
    if first.Some? then
      match responses(first.value)
      case Answered(value) => Result(Success, first.value + 1, Some(value))
      case _ => Result(PermanentError, first.value + 1, None)
    else if allowed > remaining then Result(Denied, remaining, None)
    else if allowed == 0 then Result(PermanentError, 0, None)
    else Result(if responses(allowed - 1).TimedOut? then Timeout else TransientError, allowed, None)
  }

  predicate IsTransient<T>(r: Response<T>) {
    match r
    case TimedOut => true
    case TransientFailure => true
    case Answered(_) => false
    case PermanentFailure => false
  }

  /** Attempt `k` lies within the allowance and the calls left, it is answered or fails for good, and every
      attempt before it failed in passing. */
  predicate EndsAt<T>(allowed: nat, ceiling: nat, used: nat, responses: nat -> Response<T>, k: nat) {
    && k < allowed && used + k < ceiling && !IsTransient(responses(k))
    && forall j: nat :: j < k ==> IsTransient(responses(j))
  }

  /** Every attempt that may be made fails in passing. */
  predicate NeverEnds<T>(allowed: nat, ceiling: nat, used: nat, responses: nat -> Response<T>) {
    forall j: nat :: j < allowed && used + j < ceiling ==> IsTransient(responses(j))
  }

  /** The simple form, attempt by attempt: the first attempt that does not fail in passing decides, and is the
      last one made; without one, the last attempt's class is reported if all of them could be made. */
  lemma SimpleMeans<T>(allowed: nat, ceiling: nat, used: nat, responses: nat -> Response<T>)
    ensures forall k: nat :: EndsAt(allowed, ceiling, used, responses, k) ==>
      Simple(allowed, Remaining(ceiling, used), responses) ==
        match responses(k)
        case Answered(value) => Result(Success, k + 1, Some(value))
        case _ => Result(PermanentError, k + 1, None)
    ensures NeverEnds(allowed, ceiling, used, responses) ==>
      var remaining := Remaining(ceiling, used);
      Simple(allowed, remaining, responses) ==
        if allowed > remaining then Result(Denied, remaining, None)
        else if allowed == 0 then Result(PermanentError, 0, None)
        else Result(if responses(allowed - 1) == TimedOut then Timeout else TransientError, allowed, None)
  {
    var remaining := Remaining(ceiling, used);
    forall j: nat ensures responses(j).Settles() <==> !IsTransient(responses(j)) {
    }
    forall k: nat | EndsAt(allowed, ceiling, used, responses, k)
      ensures FirstSettled(responses, Within(allowed, remaining)) == Some(k)
    {
      assert FirstSettled(responses, k).None?;
    }
  }

  class ToolRunner {
    const maxToolCalls: nat
    var callsUsed: nat

    constructor (maxToolCalls: nat, callsAlreadyUsed: nat)
      ensures this.maxToolCalls == maxToolCalls && callsUsed == callsAlreadyUsed
    {
      this.maxToolCalls, callsUsed := maxToolCalls, callsAlreadyUsed;
    }

    /** `responses(n)` is how attempt number `n` of this call would end; only attempts that are made are
        ever looked at, and every one of them is paid for. */
    method Run<T>(attemptsAllowed: nat, responses: nat -> Response<T>) returns (result: Result<T>)
      modifies this`callsUsed
      ensures result == Simple(attemptsAllowed, Remaining(maxToolCalls, old(callsUsed)), responses)
      ensures callsUsed == old(callsUsed) + result.attempts
      ensures forall k: nat :: EndsAt(attemptsAllowed, maxToolCalls, old(callsUsed), responses, k) ==>
        result == match responses(k)
                  case Answered(value) => Result(Success, k + 1, Some(value))
                  case _ => Result(PermanentError, k + 1, None)
      ensures NeverEnds(attemptsAllowed, maxToolCalls, old(callsUsed), responses) ==>
        result ==
          if attemptsAllowed > Remaining(maxToolCalls, old(callsUsed)) then
            Result(Denied, Remaining(maxToolCalls, old(callsUsed)), None)
          else if attemptsAllowed == 0 then Result(PermanentError, 0, None)
          else Result(
            if responses(attemptsAllowed - 1) == TimedOut then Timeout else TransientError, attemptsAllowed, None)
    {
      hide EndsAt, NeverEnds;
      SimpleMeans(attemptsAllowed, maxToolCalls, callsUsed, responses);
      var lastError: Option<Response<T>> := None;
      var attempt := 0;
      while attempt < attemptsAllowed
        invariant 0 <= attempt <= attemptsAllowed
        invariant callsUsed == old(callsUsed) + attempt
        invariant attempt <= Remaining(maxToolCalls, old(callsUsed))
        invariant FirstSettled(responses, attempt).None?
        invariant lastError == if attempt == 0 then None else Some(responses(attempt - 1))
      {
        if Remaining(maxToolCalls, callsUsed) == 0 {
          return Result(Denied, attempt, None);
        }
        var response := responses(attempt);
        if response.Settles() {
          FirstSettledHere(responses, attempt, Within(attemptsAllowed, Remaining(maxToolCalls, old(callsUsed))));
        }
        attempt := attempt + 1;
        callsUsed := callsUsed + 1;
        if response.Answered? {
          return Result(Success, attempt, Some(response.value));
        }
        lastError := Some(response);
        if response.PermanentFailure? {
          break;
        }
      }
      var outcome :=
        if lastError.Some? && lastError.value.TimedOut? then Timeout
        else if lastError.Some? && lastError.value.TransientFailure? then TransientError
        else PermanentError;
      result := Result(outcome, attempt, None);
    }
  }

  lemma {:induction false} FirstSettledHere<T>(responses: nat -> Response<T>, k: nat, n: nat)
    requires k < n && FirstSettled(responses, k).None? && responses(k).Settles()
    ensures FirstSettled(responses, n) == Some(k)
  {
    assert responses(k).Settles();
  }

  // ---- whole runs ---------------------------------------------------------------------

  datatype Call<!T> = Call(attemptsAllowed: nat, responses: nat -> Response<T>)

  /** The calls used after a sequence of calls, in one process or across resumes: a resumed run starts from
      the number it persisted. */
  function UsedAfter<T>(ceiling: nat, used: nat, calls: seq<Call<T>>): nat
    decreases |calls|
  {
    if calls == [] then used
    else
      var spent := Simple(calls[0].attemptsAllowed, Remaining(ceiling, used), calls[0].responses).attempts;
      UsedAfter(ceiling, used + spent, calls[1..])
  }

  lemma AttemptsAreBounded<T>(allowed: nat, remaining: nat, responses: nat -> Response<T>)
    ensures Simple(allowed, remaining, responses).attempts <= remaining
    ensures Simple(allowed, remaining, responses).attempts <= allowed
    ensures remaining == 0 && allowed > 0 ==> Simple(allowed, remaining, responses) == Result(Denied, 0, None)
  {
  }

  /** Whatever is called, and however the calls end, the number of calls used never falls and never passes
      the ceiling; and it is one the protocol machine allows its phases to spend. */
  lemma {:induction false} BudgetHolds<T>(cfg: Protocol.Settings, used: nat, calls: seq<Call<T>>)
    requires used <= cfg.maxToolCalls
    ensures used <= UsedAfter(cfg.maxToolCalls, used, calls) <= cfg.maxToolCalls
    ensures var after := UsedAfter(cfg.maxToolCalls, used, calls);
      after >= used && Protocol.Spend(cfg, used, after - used) == after
    decreases |calls|
  {
    var ceiling := cfg.maxToolCalls;
    if calls != [] {
      AttemptsAreBounded(calls[0].attemptsAllowed, Remaining(ceiling, used), calls[0].responses);
      var spent := Simple(calls[0].attemptsAllowed, Remaining(ceiling, used), calls[0].responses).attempts;
      BudgetHolds(cfg, used + spent, calls[1..]);
    }
  }

  /** Once the budget is gone, every further call is denied before its tool is reached. */
  lemma {:induction false} ExhaustedBudgetDenies<T>(ceiling: nat, calls: seq<Call<T>>, more: Call<T>)
    requires more.attemptsAllowed > 0
    ensures var used := UsedAfter(ceiling, ceiling, calls);
      used == ceiling &&
      Simple(more.attemptsAllowed, Remaining(ceiling, used), more.responses) == Result(Denied, 0, None)
  {
    BudgetHolds(Protocol.Settings(0, ceiling), ceiling, calls);
    AttemptsAreBounded(more.attemptsAllowed, 0, more.responses);
  }
}
