/** The record shapes of the order endpoint (internal/schemas/orders.py). */
module Orders {
  import opened Wrappers

  /** The package: three integer dimensions and a weight. The weight is a
      Python float; every finite float is a real number, so it is a `real` here. */
  datatype PackagesRequest = PackagesRequest(height: int, length: int, width: int, weight: real)

  /** The inbound calculation request. */
  datatype OrderCalcRequest = OrderCalcRequest(fromLocation: string, toLocation: string, packages: PackagesRequest)

  /** A timezone-aware datetime: an instant, in microseconds since the Unix
      epoch, and the UTC offset (in seconds) it is expressed in. */
  datatype DateTime = DateTime(utcMicros: int, offsetSeconds: int)

  /** One normalised tariff offer; the rating and the rate description are optional. */
  datatype OrderCalcResponse = OrderCalcResponse(
    courierService: string,
    courierServiceRating: Option<int>,
    price: int,
    deliveryTimeInDay: int,
    pickupDay: DateTime,
    deliveryDay: DateTime,
    deliveryRate: string,
    deliveryRateDescription: Option<string>)
}
