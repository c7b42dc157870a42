/** The bounded repair loop of `complete_json` (src/orchestrator/llm.py).  The
    model is an oracle that sees the attempt number and the prompt. */
module Llm {
  import opened OrderedDict

  /** What one chat call came back with; an invalid reply carries its raw text. */
  datatype ChatReply<T> = Transport | Invalid(raw: string) | Valid(value: T)

  /** The original prompt, or the repair prompt built on one rejected reply. */
  datatype Prompt = Original | Repair(previous: string)

  datatype Outcome<T> = Answer(value: T) | TransportError | Exhausted

  const MAX_JSON_ATTEMPTS := 2

  /** `max_attempts or CONFIG.max_json_attempts`: absent and zero both mean the
      default. */
  function Budget(maxAttempts: Option<int>): int {
    if maxAttempts.None? || maxAttempts.value == 0 then MAX_JSON_ATTEMPTS else maxAttempts.value
  }

  datatype Exchange<T> = Exchange(outcome: Outcome<T>, sent: seq<Prompt>)

  /** The exchange from the given attempt on. */
  function Attempts<T>(model: (nat, Prompt) -> ChatReply<T>, budget: int, attempt: nat, prompt: Prompt): Exchange<T>
    decreases budget - attempt
  {
    if attempt > budget then Exchange(Exhausted, []) else
      match model(attempt, prompt)
      case Transport => Exchange(TransportError, [prompt])
      case Valid(v) => Exchange(Answer(v), [prompt])
      case Invalid(raw) =>
        var rest := Attempts(model, budget, attempt + 1, if attempt < budget then Repair(raw) else prompt);
        Exchange(rest.outcome, [prompt] + rest.sent)
  }

  /** The exchange started with the prompts in `sent` and went on from here. */
  ghost predicate Continues<T>(whole: Exchange<T>, sent: seq<Prompt>, rest: Exchange<T>) {
    whole.outcome == rest.outcome && whole.sent == sent + rest.sent
  }

  lemma ContinueOne<T>(whole: Exchange<T>, sent: seq<Prompt>, rest: Exchange<T>, prompt: Prompt, next: Exchange<T>)
    requires Continues(whole, sent, rest) && rest.outcome == next.outcome && rest.sent == [prompt] + next.sent
    ensures Continues(whole, sent + [prompt], next)
  {
    assert sent + ([prompt] + next.sent) == (sent + [prompt]) + next.sent;
  }

  method CompleteJson<T>(model: (nat, Prompt) -> ChatReply<T>, maxAttempts: Option<int>) returns (outcome: Outcome<T>, sent: seq<Prompt>)
    ensures Exchange(outcome, sent) == Attempts(model, Budget(maxAttempts), 1, Original)
    ensures maxAttempts.None? || maxAttempts.value == 0 ==> Exchange(outcome, sent) == Attempts(model, 2, 1, Original)
    ensures maxAttempts.Some? && maxAttempts.value != 0 ==> Exchange(outcome, sent) == Attempts(model, maxAttempts.value, 1, Original)
  {
    var budget := Budget(maxAttempts);
    var prompt := Original;
    sent := [];
    var attempt: nat := 1;
    ghost var whole := Attempts(model, budget, 1, Original);
    while attempt <= budget
      invariant Continues(whole, sent, Attempts(model, budget, attempt, prompt))
      decreases budget - attempt
    {
      ghost var rest := Attempts(model, budget, attempt, prompt);
      match model(attempt, prompt) {
        case Transport => return TransportError, sent + [prompt];
        case Valid(v) => return Answer(v), sent + [prompt];
        case Invalid(raw) =>
          var next := if attempt < budget then Repair(raw) else prompt;
          ContinueOne(whole, sent, rest, prompt, Attempts(model, budget, attempt + 1, next));
          sent := sent + [prompt];
          prompt := next;
      }
      attempt := attempt + 1;
    }
    outcome := Exhausted;
    assert sent + [] == sent;
  }

  /** The reply to the k-th prompt sent. */
  function ReplyTo<T>(model: (nat, Prompt) -> ChatReply<T>, attempt: nat, sent: seq<Prompt>, k: nat): ChatReply<T>
    requires k < |sent|
  {
    model(attempt + k, sent[k])
  }

  /** Every prompt after the first repairs exactly the reply just before it. */
  predicate Chained<T(!new)>(model: (nat, Prompt) -> ChatReply<T>, attempt: nat, sent: seq<Prompt>) {
    forall k: nat :: k + 1 < |sent| ==>
      ReplyTo(model, attempt, sent, k).Invalid? && sent[k + 1] == Repair(ReplyTo(model, attempt, sent, k).raw)
  }

  lemma ChainOneMore<T(!new)>(model: (nat, Prompt) -> ChatReply<T>, attempt: nat, prompt: Prompt, rest: seq<Prompt>)
    requires Chained(model, attempt + 1, rest) && model(attempt, prompt).Invalid?
    requires rest != [] ==> rest[0] == Repair(model(attempt, prompt).raw)
    ensures Chained(model, attempt, [prompt] + rest)
    ensures rest != [] ==> ReplyTo(model, attempt, [prompt] + rest, |rest|) == ReplyTo(model, attempt + 1, rest, |rest| - 1)
  {
    var sent := [prompt] + rest;
    forall k: nat | k + 1 < |sent|
      ensures ReplyTo(model, attempt, sent, k).Invalid? && sent[k + 1] == Repair(ReplyTo(model, attempt, sent, k).raw)
    {
      if k > 0 { assert ReplyTo(model, attempt, sent, k) == ReplyTo(model, attempt + 1, rest, k - 1); }
    }
  }

  /** The loop never sends more prompts than the budget allows; every prompt
      after the first repairs exactly the reply just before it; it goes on past
      a reply only if that was invalid, and its outcome is what the last reply
      was -- a valid answer, a transport error, or, if the whole budget went on
      invalid replies (or was negative), exhaustion. */
  lemma {:induction false} AttemptsMeaning<T(!new)>(model: (nat, Prompt) -> ChatReply<T>, budget: int, attempt: nat, prompt: Prompt)
    ensures var x := Attempts(model, budget, attempt, prompt);
            var left := budget - attempt + 1;
            && (left <= 0 ==> x == Exchange(Exhausted, []))
            && (left > 0 ==> 1 <= |x.sent| <= left && x.sent[0] == prompt)
            && Chained(model, attempt, x.sent)
            && (left > 0 ==>
                  match ReplyTo(model, attempt, x.sent, |x.sent| - 1)
                  case Transport => x.outcome == TransportError
                  case Valid(v) => x.outcome == Answer(v)
                  case Invalid(_) => x.outcome == Exhausted && |x.sent| == left)
    decreases budget - attempt
  {
    if attempt <= budget && model(attempt, prompt).Invalid? {
      var x := Attempts(model, budget, attempt, prompt);
      var next := if attempt < budget then Repair(model(attempt, prompt).raw) else prompt;
      AttemptsMeaning(model, budget, attempt + 1, next);
      var rest := Attempts(model, budget, attempt + 1, next);
      assert x.sent == [prompt] + rest.sent;
      ChainOneMore(model, attempt, prompt, rest.sent);
    }
  }

  /** One call by default: an answer or a transport error ends it at once, and an
      invalid reply is repaired once, by a prompt built on that reply. */
  lemma DefaultExchange<T(!new)>(model: (nat, Prompt) -> ChatReply<T>, maxAttempts: Option<int>)
    requires maxAttempts.None? || maxAttempts.value == 0
    ensures var x := Attempts(model, Budget(maxAttempts), 1, Original);
            match model(1, Original)
            case Valid(v) => x == Exchange(Answer(v), [Original])
            case Transport => x == Exchange(TransportError, [Original])
            case Invalid(raw) =>
              match model(2, Repair(raw))
              case Valid(v) => x == Exchange(Answer(v), [Original, Repair(raw)])
              case Transport => x == Exchange(TransportError, [Original, Repair(raw)])
              case Invalid(_) => x == Exchange(Exhausted, [Original, Repair(raw)])
  {
    var x := Attempts(model, Budget(maxAttempts), 1, Original);
    if model(1, Original).Invalid? {
      var raw := model(1, Original).raw;
      assert Attempts(model, 2, 2, Repair(raw)).sent == [Repair(raw)];
      assert x.sent == [Original] + [Repair(raw)];
    }
  }
}
