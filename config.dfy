/** The static configuration tables the pipeline depends on. */
module Config {

  /** Cost per unit by shipment type. */
  const RateSheet: map<string, real> := map["GROUND" := 1.0, "2DAY" := 5.0, "EXPRESS" := 10.0, "FREIGHT" := 20.0]

  /** Discount fraction by shipment type for the discount scenario. */
  const DiscountRates: map<string, real> := map["GROUND" := 0.20, "FREIGHT" := 0.30, "2DAY" := 0.50]
}
