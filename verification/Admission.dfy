/** Token admission: the controller that meters in-flight tokens, and the leases it hands out. */
module Admission {

  /** The controller's counters. */
  datatype Counters = Counters(
    inFlightTokens: int, acceptedTokens: int, rejectedTokens: int, acceptedRequests: int, rejectedRequests: int)

  datatype Policy = Policy(enabled: bool, maxInFlightTokens: int)

  /** Tokens a prompt is charged beyond the expected output: the least positive number that covers it. */
  function Estimate(promptBytes: nat, tokensPerByte: real, outputTokens: int): (r: int)
    requires outputTokens >= 0
    ensures r - outputTokens >= 1 && (r - outputTokens) as real >= promptBytes as real * tokensPerByte
    ensures r - outputTokens == 1 || (r - outputTokens - 1) as real < promptBytes as real * tokensPerByte
  {
    var promptTokens := -(-(promptBytes as real * tokensPerByte)).Floor;
    (if promptTokens < 1 then 1 else promptTokens) + outputTokens
  }

  predicate Admits(policy: Policy, c: Counters, tokens: int) {
    policy.maxInFlightTokens <= 0 || c.inFlightTokens + tokens <= policy.maxInFlightTokens
  }

  /** What a call to `TryAcquire` does: the tokens of the lease, zero when admission is off, and
      whether the request is admitted. */
  function Acquire(policy: Policy, c: Counters, tokens: int): (Counters, int, bool) {
    if !policy.enabled then (c, 0, true)
    else if !Admits(policy, c, tokens) then
      (c.(rejectedRequests := c.rejectedRequests + 1, rejectedTokens := c.rejectedTokens + tokens), 0, false)
    else
      (c.(inFlightTokens := c.inFlightTokens + tokens, acceptedRequests := c.acceptedRequests + 1,
          acceptedTokens := c.acceptedTokens + tokens), tokens, true)
  }

  function GiveBack(c: Counters, tokens: int): Counters {
    if tokens <= 0 then c
    else
      var left := c.inFlightTokens - tokens;
      c.(inFlightTokens := if left < 0 then 0 else left)
  }

  class AdmissionController {
    const policy: Policy
    var inFlightTokens: int
    var acceptedTokens: int
    var rejectedTokens: int
    var acceptedRequests: int
    var rejectedRequests: int

    function View(): Counters
      reads this
    {
      Counters(inFlightTokens, acceptedTokens, rejectedTokens, acceptedRequests, rejectedRequests)
    }

    constructor (policy: Policy)
      ensures View() == Counters(0, 0, 0, 0, 0) && this.policy == policy
    {
      this.policy := policy;
      inFlightTokens, acceptedTokens, rejectedTokens, acceptedRequests, rejectedRequests := 0, 0, 0, 0, 0;
    }

    method TryAcquire(estimatedTokens: int) returns (lease: AdmissionLease?, admitted: bool)
      modifies this
      ensures (View(), if lease == null then 0 else lease.tokens, admitted) == Acquire(policy, old(View()), estimatedTokens)
      ensures admitted <==>
                !policy.enabled || policy.maxInFlightTokens <= 0 || old(inFlightTokens) + estimatedTokens <= policy.maxInFlightTokens
      ensures inFlightTokens == old(inFlightTokens) + (if lease == null then 0 else lease.tokens)
      ensures acceptedTokens == old(acceptedTokens) + (if lease == null then 0 else estimatedTokens)
      ensures acceptedRequests == old(acceptedRequests) + (if lease == null then 0 else 1)
      ensures rejectedTokens == old(rejectedTokens) + (if admitted then 0 else estimatedTokens)
      ensures rejectedRequests == old(rejectedRequests) + (if admitted then 0 else 1)
      ensures lease != null ==> lease.tokens == estimatedTokens
      ensures lease != null <==> policy.enabled && admitted
      ensures lease != null ==> fresh(lease) && lease.controller == this && !lease.released
    {
      if !policy.enabled {
        return null, true;
      }
      if policy.maxInFlightTokens > 0 && inFlightTokens + estimatedTokens > policy.maxInFlightTokens {
        rejectedRequests := rejectedRequests + 1;
        rejectedTokens := rejectedTokens + estimatedTokens;
        return null, false;
      }
      inFlightTokens := inFlightTokens + estimatedTokens;
      acceptedRequests := acceptedRequests + 1;
      acceptedTokens := acceptedTokens + estimatedTokens;
      lease := new AdmissionLease(this, estimatedTokens);
      return lease, true;
    }

    method GiveBackTokens(tokens: int)
      modifies this
      ensures View() == GiveBack(old(View()), tokens)
    {
      if tokens <= 0 {
        return;
      }
      inFlightTokens := inFlightTokens - tokens;
      if inFlightTokens < 0 {
        inFlightTokens := 0;
      }
    }
  }

  class AdmissionLease {
    const controller: AdmissionController
    const tokens: int
    var released: bool

    constructor (controller: AdmissionController, tokens: int)
      ensures this.controller == controller && this.tokens == tokens && !released
    {
      this.controller := controller;
      this.tokens := tokens;
      released := false;
    }

    /** Gives the tokens back the first time it is called. */
    method Release()
      modifies this, controller
      ensures released
      ensures controller.View() == if old(released) then old(controller.View()) else GiveBack(old(controller.View()), tokens)
    {
      if !released {
        released := true;
        controller.GiveBackTokens(tokens);
      }
    }
  }
}
