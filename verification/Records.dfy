// Plain records that travel between the simulation, the market and the save format.
module Records {
  import opened U64

  datatype ResourceAmount = ResourceAmount(resourceId: string, amount: u64)

  datatype BuildingReport = BuildingReport(
    definitionId: string, displayName: string, assignedWorkers: u32, workerSlots: u32)

  datatype SettlementReport = SettlementReport(
    id: string, displayName: string, population: u64,
    storage: seq<ResourceAmount>, buildings: seq<BuildingReport>, totalStoredResources: u64)

  datatype MarketPrice = MarketPrice(
    resourceId: string, baseValue: u64, supply: u64, demand: u64, price: u64, reason: string)

  datatype MarketReport = MarketReport(
    prices: seq<MarketPrice>, totalSupply: u64, totalDemand: u64,
    averagePrice: u64, minPrice: u64, maxPrice: u64)

  datatype SimulationEvent = SimulationEvent(day: u64, kind: string, message: string)

  datatype SimulationSnapshot = SimulationSnapshot(
    day: u64, settlements: seq<SettlementReport>, market: MarketReport, events: seq<SimulationEvent>)

  // Ids of settlements or caravans and the factions that own them, first entry first.
  type Owners = seq<(string, string)>

  function OwnerOf(o: Owners, id: string): string {
    if o == [] then "" else if o[0].0 == id then o[0].1 else OwnerOf(o[1..], id)
  }
}
