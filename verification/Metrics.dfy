/** When a profile reports token usage and a cost. */
module Metrics {
  import opened Text
  import opened Host

  predicate UsageComplete(c: Counts) {
    c.externalRequests > 0 && c.usageMissing == 0 && c.usageResponses == c.externalRequests
  }

  function UsageInput(c: Counts): Option<nat> { if UsageComplete(c) then c.inputTokens else None }

  function UsageOutput(c: Counts): Option<nat> { if UsageComplete(c) then c.outputTokens else None }

  const TYPESAFE := Some("typesafe")

  /** The price of a million input tokens, in dollars. */
  const UNIT_RATE: real := 0.042

  function Price(tokens: nat): real { tokens as real * UNIT_RATE / 1000000.0 }

  function CostUnknownReason(provider: Option<string>, c: Counts): string {
    if provider != TYPESAFE then "provider_pricing_not_applicable_or_unverified"
    else if c.externalRequests == 0 then "no_external_requests"
    else if c.failedRequests > 0 then "failed_requests_may_be_billable"
    else if !UsageComplete(c) || UsageInput(c).None? then "provider_usage_unavailable_or_incomplete"
    else ""
  }

  function CostAmount(provider: Option<string>, c: Counts): Option<real> {
    if CostUnknownReason(provider, c) == "" then Some(Price(OrZero(UsageInput(c)))) else None
  }

  /** A cost is given exactly for TypeSafe, complete usage and no failed request. */
  lemma CostKnownIff(provider: Option<string>, c: Counts)
    ensures CostAmount(provider, c).Some? <==>
      provider == TYPESAFE && c.failedRequests == 0 && UsageComplete(c) && c.inputTokens.Some?
  {
    var reason := CostUnknownReason(provider, c);
    assert |"provider_pricing_not_applicable_or_unverified"| > 0 && |"no_external_requests"| > 0;
    assert |"failed_requests_may_be_billable"| > 0 && |"provider_usage_unavailable_or_incomplete"| > 0;
  }

  /** The reason given when there is no cost: the first of these that applies. */
  lemma CostReasonExact(provider: Option<string>, c: Counts)
    ensures provider != Some("typesafe") ==>
      CostUnknownReason(provider, c) == "provider_pricing_not_applicable_or_unverified"
    ensures provider == Some("typesafe") && c.externalRequests == 0 ==>
      CostUnknownReason(provider, c) == "no_external_requests"
    ensures provider == Some("typesafe") && c.externalRequests > 0 && c.failedRequests > 0 ==>
      CostUnknownReason(provider, c) == "failed_requests_may_be_billable"
    ensures CostAmount(provider, c).None? && provider == Some("typesafe") && c.externalRequests > 0
            && c.failedRequests == 0 ==>
      CostUnknownReason(provider, c) == "provider_usage_unavailable_or_incomplete"
  {
    CostKnownIff(provider, c);
  }

  /** What a cost is: 42 dollars for every thousand million input tokens reported as complete, token by
      token, so that it adds up over queries. */
  lemma CostIsPerToken(provider: Option<string>, c: Counts)
    requires CostAmount(provider, c).Some?
    ensures c.inputTokens.Some? && CostAmount(provider, c).value * 1000000000.0 == 42.0 * c.inputTokens.value as real
    ensures forall m: nat, n: nat :: Price(m + n) == Price(m) + Price(n)
  {
    CostKnownIff(provider, c);
  }
}
