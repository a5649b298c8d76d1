/** The judgment contract: requests, results and their validation, and the identity under which
    judgments are deduplicated, batched and cached. */
module Judgment {
  import opened Text
  import opened Collections
  import Utf8
  import Canonical

  datatype ErrorKind = InvalidInput | InvalidResponse | ProviderFailure | Configuration

  datatype JudgmentError = JudgmentError(kind: ErrorKind, message: string)

  datatype Result<+T> = Ok(value: T) | Err(error: JudgmentError) {
    predicate IsFailure() { Err? }
    function PropagateFailure<U>(): Result<U> requires Err? { Err(error) }
    function Extract(): T requires Ok? { value }
  }

  datatype QuestionKind = Noul | Choice

  /** A probability as an f64 carries it. */
  datatype Probability = Finite(p: real) | NaN | Infinite

  datatype JudgmentResult = NoulResult(probability: Probability) | ChoiceResult(chosen: string)

  /** What becomes of a judgment. */
  type Outcome = Result<JudgmentResult>

  datatype JudgmentRequest = JudgmentRequest(
    kind: QuestionKind,
    state: Canonical.CanonicalState,
    criterion: Option<string>,
    question: Option<string>,
    choices: seq<string>,
    requestKey: string)

  const DEFAULT_REQUEST_KEY := "r0"

  /** Sizes in bytes. */
  function TextLen(s: string): nat { |Utf8.Encode(s)| }

  function OptionLen(s: Option<string>): nat { if s.Some? then TextLen(s.value) else 0 }

  /** The UTF-8 bytes of a text that may be missing, and of labels taken together. */
  ghost function BytesOf(s: Option<string>): nat { if s.Some? then |Utf8.Encode(s.value)| else 0 }

  ghost function LabelBytes(labels: seq<string>): nat {
    if labels == [] then 0 else LabelBytes(labels[..|labels| - 1]) + |Utf8.Encode(labels[|labels| - 1])|
  }

  // ---- Request construction

  predicate IsWhitespace(c: char) {
    var n := c as int;
    || 0x09 <= n <= 0x0D || n == 0x20 || n == 0x85 || n == 0xA0 || n == 0x1680
    || 0x2000 <= n <= 0x200A || n == 0x2028 || n == 0x2029 || n == 0x202F || n == 0x205F || n == 0x3000
  }

  /** Unicode's White_Space property, code point by code point. */
  lemma WhitespaceIsUnicode(c: char)
    ensures IsWhitespace(c) <==>
      (c as int) in {9, 10, 11, 12, 13, 32, 133, 160, 5760, 8192, 8193, 8194, 8195, 8196, 8197, 8198, 8199, 8200, 8201,
                     8202, 8232, 8233, 8239, 8287, 12288}
  {
  }

  predicate IsBlank(s: string) {
    forall c :: c in s ==> IsWhitespace(c)
  }

  function NoulRequest(state: Canonical.CanonicalState, criterion: string): Result<JudgmentRequest> {
    if IsBlank(criterion) then
      Err(JudgmentError(InvalidInput, "criterion must not be empty or whitespace"))
    else
      Ok(JudgmentRequest(Noul, state, Some(criterion), None, [], DEFAULT_REQUEST_KEY))
  }

  /** The first bad label, in the order the source reports them. */
  function CheckLabels(choices: seq<string>, from: nat): Result<()>
    requires from <= |choices|
    decreases |choices| - from
  {
    if from == |choices| then Ok(())
    else if IsBlank(choices[from]) then
      Err(JudgmentError(InvalidInput, "choices must not contain empty or whitespace labels"))
    else if choices[from] in choices[..from] then
      Err(JudgmentError(InvalidInput, "choices must not contain duplicate labels"))
    else CheckLabels(choices, from + 1)
  }

  function ChoiceRequest(state: Canonical.CanonicalState, question: string, choices: seq<string>): Result<JudgmentRequest> {
    if IsBlank(question) then
      Err(JudgmentError(InvalidInput, "question must not be empty or whitespace"))
    else if |choices| < 2 then
      Err(JudgmentError(InvalidInput, "choices must contain at least two labels"))
    else
      var _ :- CheckLabels(choices, 0);
      Ok(JudgmentRequest(Choice, state, None, Some(question), choices, DEFAULT_REQUEST_KEY))
  }

  lemma {:induction false} CheckLabelsExact(choices: seq<string>, from: nat)
    requires from <= |choices|
    ensures CheckLabels(choices, from).Ok?
       <==> forall i :: from <= i < |choices| ==> !IsBlank(choices[i]) && choices[i] !in choices[..i]
    decreases |choices| - from
  {
    if from < |choices| {
      CheckLabelsExact(choices, from + 1);
    }
  }

  /** A choice request exists exactly for a non-blank question and at least two labels, none blank
      and no two equal. */
  lemma ChoiceRequestExact(state: Canonical.CanonicalState, question: string, choices: seq<string>)
    ensures ChoiceRequest(state, question, choices).Ok?
       <==> !IsBlank(question) && |choices| >= 2 && Distinct(choices) && forall c :: c in choices ==> !IsBlank(c)
  {
    CheckLabelsExact(choices, 0);
    if forall i :: 0 <= i < |choices| ==> !IsBlank(choices[i]) && choices[i] !in choices[..i] {
      forall i, j | 0 <= i < j < |choices|
        ensures choices[i] != choices[j]
      {
        assert choices[..j][i] == choices[i];
      }
    }
  }

  /** What both constructors guarantee about a request. */
  ghost predicate WellMade(q: JudgmentRequest) {
    && Canonical.IsEncoded(q.state)
    && (q.kind == Noul ==> q.criterion.Some? && q.question.None? && q.choices == [])
    && (q.kind == Choice ==> q.criterion.None? && q.question.Some? && |q.choices| >= 2 && Distinct(q.choices))
  }

  // ---- Result validation

  function ValidateProbability(p: Probability): Result<()> {
    if !p.Finite? then
      Err(JudgmentError(InvalidResponse, "provider returned a non-finite probability"))
    else if !(0.0 <= p.p <= 1.0) then
      Err(JudgmentError(InvalidResponse, "provider returned a probability outside [0,1]"))
    else Ok(())
  }

  function ValidateLabel(chosen: string, choices: seq<string>): Result<()> {
    if chosen in choices then Ok(())
    else Err(JudgmentError(InvalidResponse, "provider returned a label outside the candidate set"))
  }

  function ValidateResult(kind: QuestionKind, choices: seq<string>, result: JudgmentResult): Result<()> {
    match (kind, result)
    case (Noul, NoulResult(p)) => ValidateProbability(p)
    case (Choice, ChoiceResult(chosen)) => ValidateLabel(chosen, choices)
    case _ => Err(JudgmentError(InvalidResponse, "provider result type does not match the requested judgment"))
  }

  /** The answers a question admits. */
  predicate Fits(kind: QuestionKind, choices: seq<string>, result: JudgmentResult) {
    match kind
    case Noul => result.NoulResult? && result.probability.Finite? && 0.0 <= result.probability.p <= 1.0
    case Choice => result.ChoiceResult? && result.chosen in choices
  }

  lemma ValidateResultExact(kind: QuestionKind, choices: seq<string>, result: JudgmentResult)
    ensures ValidateResult(kind, choices, result).Ok? <==> Fits(kind, choices, result)
  {
  }

  // ---- Identity

  datatype IdentityContext = IdentityContext(
    providerNamespace: string,
    endpoint: string,
    requestedModel: string,
    effectiveModel: Option<string>,
    credentialScope: nat,
    modelBindingScope: nat)

  datatype Identity = Identity(
    canonicalVersion: nat,
    stateKind: Canonical.StateKind,
    canonicalBytes: seq<Utf8.Byte>,
    questionKind: QuestionKind,
    criterion: Option<string>,
    question: Option<string>,
    choices: seq<string>,
    providerNamespace: string,
    endpoint: string,
    requestedModel: string,
    effectiveModel: Option<string>,
    credentialScope: nat,
    unresolvedModelScope: Option<nat>)

  function IdentityOf(q: JudgmentRequest, c: IdentityContext): Identity {
    Identity(q.state.version, q.state.kind, q.state.canonical, q.kind, q.criterion, q.question, q.choices,
             c.providerNamespace, c.endpoint, c.requestedModel, c.effectiveModel, c.credentialScope,
             if c.effectiveModel.None? then Some(c.modelBindingScope) else None)
  }

  predicate SameBatchContext(a: Identity, b: Identity) {
    && a.canonicalVersion == b.canonicalVersion
    && a.questionKind == b.questionKind
    && a.criterion == b.criterion
    && a.question == b.question
    && a.choices == b.choices
    && a.providerNamespace == b.providerNamespace
    && a.endpoint == b.endpoint
    && a.requestedModel == b.requestedModel
    && a.effectiveModel == b.effectiveModel
    && a.credentialScope == b.credentialScope
    && a.unresolvedModelScope == b.unresolvedModelScope
  }

  /** An identity with its state erased. */
  function BatchContext(a: Identity): Identity {
    a.(stateKind := Canonical.TextState, canonicalBytes := [])
  }

  /** Sharing a batch context is being equal up to the state, hence an equivalence: comparing a
      newcomer with one member of a batch compares it with all of them. */
  lemma SameContextIsErasure(a: Identity, b: Identity)
    ensures SameBatchContext(a, b) <==> BatchContext(a) == BatchContext(b)
  {
  }

  function WithoutKey(q: JudgmentRequest): JudgmentRequest { q.(requestKey := "") }

  /** Whether an identity is that of this request, whatever the service context. */
  predicate Identifies(id: Identity, q: JudgmentRequest) {
    && id.canonicalVersion == q.state.version
    && id.stateKind == q.state.kind
    && id.canonicalBytes == q.state.canonical
    && id.questionKind == q.kind
    && id.criterion == q.criterion
    && id.question == q.question
    && id.choices == q.choices
  }

  /** Soundness of deduplication: one identity stands for one request, up to its association key.
      The canonical bytes carry the whole typed state because they decode uniquely. */
  lemma IdentityDeterminesRequest(id: Identity, q: JudgmentRequest, q': JudgmentRequest)
    requires Canonical.IsEncoded(q.state) && Canonical.IsEncoded(q'.state)
    requires Identifies(id, q) && Identifies(id, q')
    ensures WithoutKey(q) == WithoutKey(q')
  {
    Canonical.BytesDetermineState(q.state, q'.state);
  }

  /** The contexts in which a judgment may be shared: the same service, requested model and credential, the
      same effective model and, while that is unknown, the same binding scope. */
  ghost predicate SameServiceContext(c: IdentityContext, d: IdentityContext) {
    && c.providerNamespace == d.providerNamespace && c.endpoint == d.endpoint && c.requestedModel == d.requestedModel
    && c.effectiveModel == d.effectiveModel && c.credentialScope == d.credentialScope
    && (c.effectiveModel.None? ==> c.modelBindingScope == d.modelBindingScope)
  }

  /** A complete identity matches only the same request, up to its key, in the same context. */
  lemma IdentityExact(q: JudgmentRequest, c: IdentityContext, q': JudgmentRequest, c': IdentityContext)
    requires Canonical.IsEncoded(q.state) && Canonical.IsEncoded(q'.state)
    ensures IdentityOf(q, c) == IdentityOf(q', c') <==> WithoutKey(q) == WithoutKey(q') && SameServiceContext(c, c')
  {
    if IdentityOf(q, c) == IdentityOf(q', c') {
      IdentityDeterminesRequest(IdentityOf(q, c), q, q');
    }
    if WithoutKey(q) == WithoutKey(q') {
      assert q.state == WithoutKey(q).state == q'.state && q.kind == WithoutKey(q).kind == q'.kind;
      assert q.criterion == WithoutKey(q).criterion == q'.criterion && q.question == WithoutKey(q).question == q'.question;
      assert q.choices == WithoutKey(q).choices == q'.choices;
    }
  }
}
