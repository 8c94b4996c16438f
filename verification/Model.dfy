/** The rows the monitor stores; row ids live in the store's tables. */
module Model {

  /** The CHECK constraint of the settlements table admits exactly these. */
  datatype EventType = Settled | Expired | Slashed | Discarded

  datatype Settlement = Settlement(
    blockHeight: int,
    blockTime: int,
    eventType: EventType,
    supplier: string,
    application: string,
    serviceId: string,
    sessionEnd: int,
    claimProofStatus: int,
    claimedUpokt: int,
    numRelays: int,
    claimedComputeUnits: int,
    estimatedComputeUnits: int,
    proofRequirement: int,
    estimatedRelays: int,
    isOverserviced: bool,
    effectiveBurnUpokt: int,
    overserviceDiffUpokt: int,
    expirationReason: string,
    errorMessage: string,
    slashPenaltyUpokt: int)

  datatype RewardDistribution = RewardDistribution(address: string, amountUpokt: int)

  datatype OverserviceEvent = OverserviceEvent(
    blockHeight: int,
    blockTime: int,
    application: string,
    supplier: string,
    expectedBurnUpokt: int,
    effectiveBurnUpokt: int)

  datatype ReimbursementEvent = ReimbursementEvent(
    blockHeight: int,
    blockTime: int,
    application: string,
    supplier: string,
    owner: string,
    serviceId: string,
    sessionId: string,
    amountUpokt: int)

  datatype Source = Live | Backfill

  datatype ProcessedBlock = ProcessedBlock(height: int, blockTime: int, eventCount: nat, source: Source)

  // The UNIQUE columns of the three event tables.

  datatype SettlementKey = SettlementKey(
    height: int, eventType: EventType, supplier: string, application: string, sessionEnd: int)

  datatype OverserviceKey = OverserviceKey(height: int, application: string, supplier: string)

  datatype ReimbursementKey = ReimbursementKey(
    height: int, application: string, supplier: string, sessionId: string)

  function KeyOfSettlement(s: Settlement): SettlementKey {
    SettlementKey(s.blockHeight, s.eventType, s.supplier, s.application, s.sessionEnd)
  }

  function KeyOfOverservice(o: OverserviceEvent): OverserviceKey {
    OverserviceKey(o.blockHeight, o.application, o.supplier)
  }

  function KeyOfReimbursement(r: ReimbursementEvent): ReimbursementKey {
    ReimbursementKey(r.blockHeight, r.application, r.supplier, r.sessionId)
  }
}
