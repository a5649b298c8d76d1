/** The provider protocol: capabilities, batch answers, and the exact validation of a batch. */
module ProviderProtocol {
  import opened Text
  import opened Judgment
  import opened Errors
  import opened Collections

  datatype CapabilityStatus = Verified | Unsupported | Unknown

  datatype Capabilities = Capabilities(
    noul: CapabilityStatus,
    choice: CapabilityStatus,
    multiStateBatch: CapabilityStatus,
    maxBatchJudgments: Option<nat>,
    maxChoices: Option<nat>)
  {
    function Supports(kind: QuestionKind): CapabilityStatus {
      match kind
      case Noul => noul
      case Choice => choice
    }

    /** Whether a question with these labels is within what the service verifies. */
    predicate Admits(kind: QuestionKind, labels: seq<string>) {
      && Supports(kind) == Verified
      && (kind == Choice && maxChoices.Some? ==> |labels| <= maxChoices.value)
    }
  }

  datatype Usage = Usage(inputTokens: Option<nat>, outputTokens: Option<nat>)

  datatype Answer = Answer(requestKey: string, result: JudgmentResult)

  datatype BatchResult = BatchResult(answers: seq<Answer>, effectiveModel: Option<string>, usage: Option<Usage>)

  function RequestKeys(requests: seq<JudgmentRequest>): (keys: seq<string>)
    ensures |keys| == |requests|
  {
    seq(|requests|, i requires 0 <= i < |requests| => requests[i].requestKey)
  }

  function AnswerKeys(answers: seq<Answer>): (keys: seq<string>)
    ensures |keys| == |answers|
  {
    seq(|answers|, i requires 0 <= i < |answers| => answers[i].requestKey)
  }

  /** A response answers a batch: the answer keys are the request keys, each once and in any order,
      and every answer fits the request it is keyed to. */
  ghost predicate AnswersBatch(requests: seq<JudgmentRequest>, answers: seq<Answer>) {
    && Distinct(RequestKeys(requests))
    && multiset(AnswerKeys(answers)) == multiset(RequestKeys(requests))
    && forall i, j :: 0 <= i < |requests| && 0 <= j < |answers| && requests[i].requestKey == answers[j].requestKey
         ==> Fits(requests[i].kind, requests[i].choices, answers[j].result)
  }

  /** `iter().find`: the first request with that key. */
  method FindRequest(requests: seq<JudgmentRequest>, key: string) returns (index: Option<nat>)
    ensures index.Some? ==> index.value < |requests| && requests[index.value].requestKey == key
    ensures index.None? ==> key !in RequestKeys(requests)
  {
    for i := 0 to |requests|
      invariant forall k :: 0 <= k < i ==> requests[k].requestKey != key
    {
      if requests[i].requestKey == key {
        return Some(i);
      }
    }
    return None;
  }

  /** The first `j` answers have distinct known keys and fit their requests. */
  ghost predicate AnsweredSoFar(requests: seq<JudgmentRequest>, answers: seq<Answer>, j: nat) {
    && j <= |answers| && Distinct(AnswerKeys(answers)[..j])
    && (forall x :: x in AnswerKeys(answers)[..j] ==> x in RequestKeys(requests))
    && forall i, k :: 0 <= i < |requests| && 0 <= k < j && requests[i].requestKey == answers[k].requestKey
         ==> Fits(requests[i].kind, requests[i].choices, answers[k].result)
  }

  lemma NextAnswered(requests: seq<JudgmentRequest>, answers: seq<Answer>, j: nat, index: nat)
    requires AnsweredSoFar(requests, answers, j) && j < |answers| && index < |requests|
    requires Distinct(RequestKeys(requests)) && requests[index].requestKey == answers[j].requestKey
    requires answers[j].requestKey !in AnswerKeys(answers)[..j]
    requires Fits(requests[index].kind, requests[index].choices, answers[j].result)
    ensures AnsweredSoFar(requests, answers, j + 1)
  {
    hide Fits;
    var requestKeys, answerKeys := RequestKeys(requests), AnswerKeys(answers);
    assert answerKeys[..j + 1] == answerKeys[..j] + [answers[j].requestKey];
    assert requestKeys[index] == answers[j].requestKey;
    forall i | 0 <= i < |requests| && requests[i].requestKey == answers[j].requestKey
      ensures i == index
    {
      assert requestKeys[i] == requestKeys[index];
    }
  }

  /** When all are answered so, the answers answer the batch. */
  lemma AllAnsweredSo(requests: seq<JudgmentRequest>, answers: seq<Answer>)
    requires AnsweredSoFar(requests, answers, |answers|) && Distinct(RequestKeys(requests)) && |answers| == |requests|
    ensures AnswersBatch(requests, answers) && Elements(AnswerKeys(answers)) == Elements(RequestKeys(requests))
  {
    assert AnswerKeys(answers)[..|answers|] == AnswerKeys(answers);
    KnownKeysAreAllKeys(RequestKeys(requests), AnswerKeys(answers));
  }

  /** What a response that answers the batch never shows. */
  lemma AnsweringResponse(requests: seq<JudgmentRequest>, answers: seq<Answer>)
    requires AnswersBatch(requests, answers)
    ensures |answers| == |requests| && Distinct(AnswerKeys(answers)) && Distinct(RequestKeys(requests))
    ensures forall j :: 0 <= j < |answers| ==> answers[j].requestKey in RequestKeys(requests)
  {
    SameMultisetDistinct(RequestKeys(requests), AnswerKeys(answers));
    forall j | 0 <= j < |answers|
      ensures answers[j].requestKey in RequestKeys(requests)
    {
      assert AnswerKeys(answers)[j] in multiset(AnswerKeys(answers));
    }
  }

  /** The first loop of `validate_batch_result`. */
  method CollectKeys(requests: seq<JudgmentRequest>) returns (expected: Option<set<string>>)
    ensures expected.Some? <==> Distinct(RequestKeys(requests))
    ensures expected.Some? ==> expected.value == Elements(RequestKeys(requests))
  {
    ghost var requestKeys := RequestKeys(requests);
    var keys := {};
    for i := 0 to |requests|
      invariant keys == Elements(requestKeys[..i]) && Distinct(requestKeys[..i])
    {
      var key := requests[i].requestKey;
      assert requestKeys[i] == key;
      if key in keys {
        return None;
      }
      keys := keys + {key};
      assert requestKeys[..i + 1] == requestKeys[..i] + [key];
    }
    assert requestKeys[..|requests|] == requestKeys;
    return Some(keys);
  }

  /** `validate_batch_result` accepts exactly the responses that answer the batch. */
  method ValidateBatchResult(requests: seq<JudgmentRequest>, answers: seq<Answer>) returns (r: Result<()>)
    ensures r.Ok? <==> AnswersBatch(requests, answers)
  {
    ghost var answerKeys := AnswerKeys(answers);
    if AnswersBatch(requests, answers) {
      AnsweringResponse(requests, answers);
    }
    var expected := CollectKeys(requests);
    if expected.None? {
      return Err(REPEATED_REQUEST_KEYS);
    }
    if |answers| != |requests| {
      return Err(ANSWER_COUNT_DIFFERS);
    }
    var seen := {};
    for j := 0 to |answers|
      invariant seen == Elements(answerKeys[..j]) && AnsweredSoFar(requests, answers, j)
    {
      var answer := answers[j];
      assert answerKeys[j] == answer.requestKey;
      if answer.requestKey in seen {
        return Err(REPEATED_ANSWER_KEYS);
      }
      var index := FindRequest(requests, answer.requestKey);
      if index.None? {
        return Err(UNKNOWN_ANSWER_KEY);
      }
      var request := requests[index.value];
      ValidateResultExact(request.kind, request.choices, answer.result);
      var valid := ValidateResult(request.kind, request.choices, answer.result);
      if valid.Err? {
        return valid;
      }
      NextAnswered(requests, answers, j, index.value);
      assert answerKeys[..j + 1] == answerKeys[..j] + [answer.requestKey];
      seen := seen + {answer.requestKey};
    }
    assert answerKeys[..|answers|] == answerKeys;
    AllAnsweredSo(requests, answers);
    // The source compares the two sets once more; the comparison never fails.
    r := if seen == expected.value then Ok(())
         else Err(ANSWER_KEYS_DIFFER);
  }

  // ---- Association by key

  /** The answers collected by key. */
  function ByKey(answers: seq<Answer>): map<string, JudgmentResult> {
    if answers == [] then map[]
    else
      var last := answers[|answers| - 1];
      ByKey(answers[..|answers| - 1])[last.requestKey := last.result]
  }

  lemma {:induction false} ByKeyFinds(answers: seq<Answer>, j: nat)
    requires Distinct(AnswerKeys(answers)) && j < |answers|
    ensures answers[j].requestKey in ByKey(answers) && ByKey(answers)[answers[j].requestKey] == answers[j].result
  {
    var init, last := answers[..|answers| - 1], answers[|answers| - 1];
    assert AnswerKeys(init) == AnswerKeys(answers)[..|answers| - 1];
    if j < |answers| - 1 {
      ByKeyFinds(init, j);
      assert AnswerKeys(answers)[j] != AnswerKeys(answers)[|answers| - 1];
    }
  }

  lemma {:induction false} ByKeyDomain(answers: seq<Answer>, key: string)
    ensures key in ByKey(answers) <==> key in AnswerKeys(answers)
  {
    if answers != [] {
      var init := answers[..|answers| - 1];
      ByKeyDomain(init, key);
      assert AnswerKeys(answers) == AnswerKeys(init) + [answers[|answers| - 1].requestKey];
    }
  }

  /** What a batch assigns to each request depends on the answers as a collection, not on the
      order the service listed them in. */
  lemma ByKeyIgnoresOrder(answers: seq<Answer>, answers': seq<Answer>)
    requires Distinct(AnswerKeys(answers)) && multiset(answers) == multiset(answers')
    ensures Distinct(AnswerKeys(answers')) && ByKey(answers) == ByKey(answers')
  {
    PermutedKeysDistinct(answers, answers');
    forall j | 0 <= j < |answers|
      ensures answers[j].requestKey in ByKey(answers') && ByKey(answers')[answers[j].requestKey] == answers[j].result
      ensures answers[j].requestKey in ByKey(answers) && ByKey(answers)[answers[j].requestKey] == answers[j].result
    {
      ByKeyFinds(answers, j);
      assert answers[j] in multiset(answers');
      var k :| 0 <= k < |answers'| && answers'[k] == answers[j];
      ByKeyFinds(answers', k);
    }
    forall k | 0 <= k < |answers'|
      ensures answers'[k].requestKey in AnswerKeys(answers)
    {
      assert answers'[k] in multiset(answers);
      var j :| 0 <= j < |answers| && answers[j] == answers'[k];
      assert AnswerKeys(answers)[j] == answers[j].requestKey;
    }
    forall key | key in ByKey(answers) || key in ByKey(answers')
      ensures key in ByKey(answers) && key in ByKey(answers') && ByKey(answers)[key] == ByKey(answers')[key]
    {
      ByKeyDomain(answers, key);
      ByKeyDomain(answers', key);
      var j :| 0 <= j < |answers| && AnswerKeys(answers)[j] == key;
      assert answers[j].requestKey == key;
    }
  }

  lemma PermutedKeysDistinct(answers: seq<Answer>, answers': seq<Answer>)
    requires Distinct(AnswerKeys(answers)) && multiset(answers) == multiset(answers')
    ensures Distinct(AnswerKeys(answers'))
  {
    forall i, j | 0 <= i < j < |answers|
      ensures answers[i] != answers[j]
    {
      assert AnswerKeys(answers)[i] != AnswerKeys(answers)[j];
    }
    SameMultisetDistinct(answers, answers');
    forall i, j | 0 <= i < j < |answers'|
      ensures AnswerKeys(answers')[i] != AnswerKeys(answers')[j]
    {
      assert answers'[i] in answers && answers'[j] in answers;
      var a :| 0 <= a < |answers| && answers[a] == answers'[i];
      var b :| 0 <= b < |answers| && answers[b] == answers'[j];
      assert a != b;
      assert AnswerKeys(answers)[a] != AnswerKeys(answers)[b];
    }
  }

  /** A validated batch assigns every request an answer of its own that fits it. */
  lemma ValidatedBatchAssigns(requests: seq<JudgmentRequest>, answers: seq<Answer>, i: nat)
    requires AnswersBatch(requests, answers) && i < |requests|
    ensures Distinct(AnswerKeys(answers))
    ensures requests[i].requestKey in ByKey(answers)
    ensures Fits(requests[i].kind, requests[i].choices, ByKey(answers)[requests[i].requestKey])
    ensures Answer(requests[i].requestKey, ByKey(answers)[requests[i].requestKey]) in answers
  {
    SameMultisetDistinct(RequestKeys(requests), AnswerKeys(answers));
    assert RequestKeys(requests)[i] in multiset(AnswerKeys(answers));
    var j :| 0 <= j < |answers| && AnswerKeys(answers)[j] == requests[i].requestKey;
    ByKeyFinds(answers, j);
  }
}
