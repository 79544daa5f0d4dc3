/**
 * The three region tables of the repository (the collector's carbon factors, the monitor's
 * carbon factors and the API's sustainability entries) are separate copies; these lemmas state
 * that they agree region by region, fallback included.
 */
module Consistency {
  import Collector
  import Monitor
  import Api

  /** The monitor's carbon estimate is the collector's, for every energy figure and region. */
  lemma CarbonEstimatesAgree(energyConsumption: real, region: string)
    ensures Monitor.CarbonFactor(region) == Collector.CarbonFactor(region)
    ensures Monitor.EstimateCarbonFootprint(energyConsumption, region)
            == Collector.EstimateCarbonFootprint(energyConsumption, region)
  {
  }

  /** The API's carbon intensity of a region is the factor the estimators use for it. */
  lemma SustainabilityIntensityAgrees(region: string)
    ensures Api.GetSustainabilityMetrics(region)["carbon_intensity"] == Collector.CarbonFactor(region)
  {
    if region !in Collector.CarbonFactors {
      assert region !in Api.SustainabilityData;
    }
  }
}
