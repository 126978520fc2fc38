/** Carriers as the routing engine and the registry see them
    (internal/ports/carrier.go): capabilities and estimates. */
module Carriers {
  import opened Common

  datatype Role = FirstMile | MidMile | LastMile

  datatype PickupMode = PickupAddress | PickupLocker | PickupHub

  datatype Dims = Dims(l: real, w: real, h: real) {
    function Sides(): (s: seq<real>)
      ensures |s| == 3
    {
      [l, w, h]
    }
  }

  datatype Capabilities = Capabilities(
    id: string,
    roles: seq<Role>,
    maxWeightKg: real,
    maxDims: Dims,
    pickupModes: seq<PickupMode>,
    supportsLocker: bool)

  /** An adapter; `serial` tells apart two adapters of equal capabilities. */
  datatype Carrier = Carrier(serial: nat, caps: Capabilities)

  /** Cost in minor units, ETA in nanoseconds, confidence in 0..1 by convention. */
  datatype Estimate = Estimate(costMinor: int, currency: string, eta: int, confidence: real)

  /** What the engine and the carriers read of a shipment request. */
  datatype Request = Request(
    internalAWB: string,
    idempotencyKey: Option<Id>,
    pickupMode: PickupMode,
    weightKg: real,
    dims: Dims)
}
