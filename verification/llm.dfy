/** The attempt/retry policy of `query_llm` (agents/llm_service.py). The HTTP
    call is replaced by the outcome of each attempt; sleeps, prompts and
    credentials are left out. */
module Llm {
  import opened Wrappers
  import opened Text
  import opened Json
  import opened Extract

  /** What one call to the completion endpoint produced: a request exception
      (which, with current `requests`, includes a 200 whose body is not
      JSON), or a status with the reply's `choices`, each reduced to its
      `message.content` text (`None` when the reply has no `choices` key). */
  datatype Attempt = RequestFailed | Response(status: int, choices: Option<seq<string>>)

  /** `for attempt in range(2)`. */
  const MaxAttempts: nat := 2

  /** A "model loading" status or a request exception moves on to the next attempt. */
  predicate IsRetryable(a: Attempt) {
    a.RequestFailed? || a.status == 503
  }

  /** An attempt that ends the loop with a usable first choice. */
  predicate HasContent(a: Attempt) {
    a.Response? && a.status == 200 && a.choices.Some? && |a.choices.value| > 0
  }

  /** The oracle call over the outcomes `network(0)`, `network(1)` of its
      attempts; `parse` stands for `json.loads`. Returns the answer and the
      number of attempts made. */
  method QueryLlm(network: nat -> Attempt, jsonMode: bool, parse: string -> Option<Value>)
    returns (r: Option<Value>, used: nat)
    ensures 1 <= used <= MaxAttempts
    ensures forall i :: 0 <= i < used - 1 ==> IsRetryable(network(i))
    ensures used < MaxAttempts ==> !IsRetryable(network(used - 1))
    ensures IsRetryable(network(used - 1)) ==> r == None
    ensures !HasContent(network(used - 1)) ==> r == None
    ensures HasContent(network(used - 1)) && jsonMode ==>
              r == parse(CleanJsonText(network(used - 1).choices.value[0]))
    ensures HasContent(network(used - 1)) && !jsonMode ==>
              r == Some(Str(Strip(network(used - 1).choices.value[0])))
  {
    var attempt: nat := 0;
    while attempt < MaxAttempts
      invariant attempt <= MaxAttempts
      invariant forall i :: 0 <= i < attempt ==> IsRetryable(network(i))
      decreases MaxAttempts - attempt
    {
      match network(attempt) {
        case RequestFailed =>
        case Response(status, choices) =>
          if status != 503 {
            used := attempt + 1;
            if status != 200 {
              return None, used;
            }
            if choices.None? || |choices.value| == 0 {
              return None, used;
            }
            var content := choices.value[0];
            if jsonMode {
              return parse(CleanJsonText(content)), used;
            }
            return Some(Str(Strip(content))), used;
          }
      }
      attempt := attempt + 1;
    }
    return None, MaxAttempts;
  }
}
