/** The messages the producer publishes and the Kafka topics they go to. */
module Records {
  import opened Wrappers
  import opened Clock

  /** One message. Each variant is the dictionary one report family builds; numeric fields are
      the values of `float(...)` and `int(...)` on the report's text. */
  datatype Record =
    | ZonalPrice(timestamp: DateTime, zone: string, price: real, energyLossPrice: real, congestionPrice: real)
    | Demand(timestamp: DateTime, zone: string, demandMw: real)
    | Supply(timestamp: DateTime, fuelType: string, outputMw: real)
    | GeneratorOutput(timestamp: DateTime, generator: string, fuelType: string, outputMw: real, capabilityMw: real)
    | IntertieFlow(timestamp: DateTime, intertie: string, scheduledMw: real, actualMw: real)
    | Adequacy(timestamp: DateTime, deliveryDate: string, deliveryHour: int, forecastDemandMw: real, forecastSupplyMw: real)
    | DayAheadPrice(timestamp: DateTime, deliveryDate: string, deliveryHour: int, zone: string, zonalPrice: real)
    | IntertieLmp(timestamp: DateTime, intertieZone: string, lmp: real)
    | DayAheadIntertieLmp(timestamp: DateTime, deliveryDate: string, deliveryHour: int, intertieZone: string, lmp: real)

  const ZonalPricesTopic := "ieso.realtime.zonal-prices"
  const ZonalDemandTopic := "ieso.realtime.zonal-demand"
  const FuelMixTopic := "ieso.hourly.fuel-mix"
  const GeneratorOutputTopic := "ieso.realtime.generator-output"
  const IntertieFlowTopic := "ieso.hourly.intertie-flow"
  const AdequacyTopic := "ieso.hourly.adequacy"
  const DayAheadOzpTopic := "ieso.hourly.da-ozp"

  /** Each family has a topic of its own, except that realtime supply shares the fuel-mix
      topic. */
  lemma TopicsDistinct()
    ensures var topics := [ZonalPricesTopic, ZonalDemandTopic, FuelMixTopic, GeneratorOutputTopic,
                           IntertieFlowTopic, AdequacyTopic, DayAheadOzpTopic];
      forall i, j :: 0 <= i < j < |topics| ==> topics[i] != topics[j]
  {
    var topics := [ZonalPricesTopic, ZonalDemandTopic, FuelMixTopic, GeneratorOutputTopic,
                   IntertieFlowTopic, AdequacyTopic, DayAheadOzpTopic];
    assert ZonalPricesTopic[14] != ZonalDemandTopic[20];
    assert FuelMixTopic[12] != AdequacyTopic[12];
  }

  /** The outcome of fetching a live report without retries: the decoded document, or an
      exception (a non-2xx status, a timeout, malformed XML) that reaches the caller. */
  datatype Live<D> = Served(doc: D) | Raised

  /** The report server's base URL. */
  const IesoBaseUrl := "https://reports-public.ieso.ca/public"

  /** The DocBody of the adequacy and day-ahead reports: its DeliveryDate text. */
  datatype DeliveryBody = DeliveryBody(deliveryDate: Option<string>)

  const OntarioZone := "ONTARIO"
  const RealtimeTotalFuel := "REALTIME_TOTAL"
}
