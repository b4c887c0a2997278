/**
 * The agent's view of the ledger: the records it reads, the calls it makes
 * on the four contracts and the node, and an oracle that answers each call.
 * The oracle's answer to a call may depend on every call made before it, so
 * it can stand for any ledger, including one that remembers the agent's own
 * writes.
 */
module Ledger {
  import opened Wrappers

  type Address = string
  type EventId = string
  type SchemeId = string
  type TxHash = string
  /** The bytes32 proof hash of an eligibility decision, the idempotency key for its payment. */
  type ProofHash = string

  /** The fields of a farmer's registry profile that the agent reads. */
  datatype Profile = Profile(
    wallet: Address,
    landProofHash: string,
    district: string,
    village: string,
    cropType: int,
    isActive: bool)

  /** An eligibility decision of the rules engine (preview or stored). */
  datatype Decision = Decision(
    farmer: Address,
    isEligible: bool,
    subsidyAmount: nat,
    proofHash: ProofHash,
    reason: string,
    weatherEventId: EventId,
    timestamp: nat)

  /** A weather event recorded by the oracle contract, as decoded from its log. */
  datatype WeatherEvent = WeatherEvent(
    eventId: EventId,
    region: string,
    temperature: int,
    rainfall: int,
    droughtAlert: bool,
    floodAlert: bool,
    timestamp: int)

  /** One external call the agent makes to the node or to a contract. */
  datatype Call =
    | GetBlockNumber
    | GetLogs(fromBlock: nat, toBlock: nat)
    | GetAllEventIds
    | GetWeatherEvent(eventId: EventId)
    | GetFarmersByDistrict(district: string)
    | GetFarmerProfile(farmer: Address)
    | PreviewEligibility(farmer: Address, eventId: EventId, schemeId: SchemeId)
    | SendEligibility(farmer: Address, eventId: EventId, schemeId: SchemeId)
    | WaitEligibility(tx: TxHash)
    | GetLatestDecision(farmer: Address)
    | IsPaymentExecuted(proofHash: ProofHash)
    | SendPayment(farmer: Address, proofHash: ProofHash, amount: nat)
    | WaitPayment(tx: TxHash)

  /** The calls made so far, oldest first. */
  type History = seq<Call>

  /**
   * What the ledger answers to each call, given the calls made before it. An
   * `Err` is a call that threw (transport error, revert, timeout).
   */
  datatype Answers = Answers(
    blockNumber: History -> Result<nat>,
    logs: (History, nat, nat) -> Result<seq<WeatherEvent>>,
    allEventIds: History -> Result<seq<EventId>>,
    weatherEvent: (History, EventId) -> Result<WeatherEvent>,
    farmersByDistrict: (History, string) -> Result<seq<Address>>,
    farmerProfile: (History, Address) -> Result<Profile>,
    preview: (History, Address, EventId, SchemeId) -> Result<Decision>,
    sendEligibility: (History, Address, EventId, SchemeId) -> Result<TxHash>,
    waitEligibility: (History, TxHash) -> Result<()>,
    latestDecision: (History, Address) -> Result<Decision>,
    isPaymentExecuted: (History, ProofHash) -> Result<bool>,
    sendPayment: (History, Address, ProofHash, nat) -> Result<TxHash>,
    waitPayment: (History, TxHash) -> Result<()>)

  /**
   * The contract bindings the agent holds: each method makes one call,
   * records it, and returns the oracle's answer for it.
   */
  class Gateway {
    const answers: Answers
    var calls: History

    constructor (answers: Answers)
      ensures this.answers == answers && calls == []
    {
      this.answers := answers;
      calls := [];
    }

    method BlockNumber() returns (r: Result<nat>)
      modifies this
      ensures r == answers.blockNumber(old(calls)) && calls == old(calls) + [GetBlockNumber]
    {
      r := answers.blockNumber(calls);
      calls := calls + [GetBlockNumber];
    }

    method Logs(fromBlock: nat, toBlock: nat) returns (r: Result<seq<WeatherEvent>>)
      modifies this
      ensures r == answers.logs(old(calls), fromBlock, toBlock)
      ensures calls == old(calls) + [GetLogs(fromBlock, toBlock)]
    {
      r := answers.logs(calls, fromBlock, toBlock);
      calls := calls + [GetLogs(fromBlock, toBlock)];
    }

    method AllEventIds() returns (r: Result<seq<EventId>>)
      modifies this
      ensures r == answers.allEventIds(old(calls)) && calls == old(calls) + [GetAllEventIds]
    {
      r := answers.allEventIds(calls);
      calls := calls + [GetAllEventIds];
    }

    method WeatherEventOf(eventId: EventId) returns (r: Result<WeatherEvent>)
      modifies this
      ensures r == answers.weatherEvent(old(calls), eventId)
      ensures calls == old(calls) + [GetWeatherEvent(eventId)]
    {
      r := answers.weatherEvent(calls, eventId);
      calls := calls + [GetWeatherEvent(eventId)];
    }

    method FarmersByDistrict(district: string) returns (r: Result<seq<Address>>)
      modifies this
      ensures r == answers.farmersByDistrict(old(calls), district)
      ensures calls == old(calls) + [GetFarmersByDistrict(district)]
    {
      r := answers.farmersByDistrict(calls, district);
      calls := calls + [GetFarmersByDistrict(district)];
    }

    method FarmerProfile(farmer: Address) returns (r: Result<Profile>)
      modifies this
      ensures r == answers.farmerProfile(old(calls), farmer)
      ensures calls == old(calls) + [GetFarmerProfile(farmer)]
    {
      r := answers.farmerProfile(calls, farmer);
      calls := calls + [GetFarmerProfile(farmer)];
    }

    method Preview(farmer: Address, eventId: EventId, schemeId: SchemeId) returns (r: Result<Decision>)
      modifies this
      ensures r == answers.preview(old(calls), farmer, eventId, schemeId)
      ensures calls == old(calls) + [PreviewEligibility(farmer, eventId, schemeId)]
    {
      r := answers.preview(calls, farmer, eventId, schemeId);
      calls := calls + [PreviewEligibility(farmer, eventId, schemeId)];
    }

    method SubmitEligibility(farmer: Address, eventId: EventId, schemeId: SchemeId) returns (r: Result<TxHash>)
      modifies this
      ensures r == answers.sendEligibility(old(calls), farmer, eventId, schemeId)
      ensures calls == old(calls) + [SendEligibility(farmer, eventId, schemeId)]
    {
      r := answers.sendEligibility(calls, farmer, eventId, schemeId);
      calls := calls + [SendEligibility(farmer, eventId, schemeId)];
    }

    method WaitForEligibility(tx: TxHash) returns (r: Result<()>)
      modifies this
      ensures r == answers.waitEligibility(old(calls), tx)
      ensures calls == old(calls) + [WaitEligibility(tx)]
    {
      r := answers.waitEligibility(calls, tx);
      calls := calls + [WaitEligibility(tx)];
    }

    method LatestDecision(farmer: Address) returns (r: Result<Decision>)
      modifies this
      ensures r == answers.latestDecision(old(calls), farmer)
      ensures calls == old(calls) + [GetLatestDecision(farmer)]
    {
      r := answers.latestDecision(calls, farmer);
      calls := calls + [GetLatestDecision(farmer)];
    }

    method PaymentExecuted(proofHash: ProofHash) returns (r: Result<bool>)
      modifies this
      ensures r == answers.isPaymentExecuted(old(calls), proofHash)
      ensures calls == old(calls) + [IsPaymentExecuted(proofHash)]
    {
      r := answers.isPaymentExecuted(calls, proofHash);
      calls := calls + [IsPaymentExecuted(proofHash)];
    }

    method ExecutePayment(farmer: Address, proofHash: ProofHash, amount: nat) returns (r: Result<TxHash>)
      modifies this
      ensures r == answers.sendPayment(old(calls), farmer, proofHash, amount)
      ensures calls == old(calls) + [SendPayment(farmer, proofHash, amount)]
    {
      r := answers.sendPayment(calls, farmer, proofHash, amount);
      calls := calls + [SendPayment(farmer, proofHash, amount)];
    }

    method WaitForPayment(tx: TxHash) returns (r: Result<()>)
      modifies this
      ensures r == answers.waitPayment(old(calls), tx)
      ensures calls == old(calls) + [WaitPayment(tx)]
    {
      r := answers.waitPayment(calls, tx);
      calls := calls + [WaitPayment(tx)];
    }
  }
}
