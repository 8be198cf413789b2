/** Vehicles as the parking registry sees them: the vehicle classes with their
    base rates, and a vehicle record whose identity is its plate alone. */
module Vehicles {

  datatype Option<+T> = None | Some(value: T)

  /** The four vehicle classes the parking accepts. */
  datatype VehicleType = Car | MiniBus | Bus | Motorcycle

  /** Base rate charged for a stay of up to 120 minutes. */
  function Tarifa(t: VehicleType): (r: nat)
    ensures 15 <= r <= 30
    ensures r == 15 <==> t == Motorcycle
    ensures r == 30 <==> t == Bus
  {
    match t
    case Car => 20
    case Motorcycle => 15
    case MiniBus => 25
    case Bus => 30
  }

  /** The rate table: car 20, motorcycle 15, minibus 25, bus 30, so each
      class pays more than the one before it in that order from motorcycle
      to bus. */
  lemma BaseRates()
    ensures Tarifa(Car) == 20 && Tarifa(Motorcycle) == 15
    ensures Tarifa(MiniBus) == 25 && Tarifa(Bus) == 30
    ensures Tarifa(Motorcycle) < Tarifa(Car) < Tarifa(MiniBus) < Tarifa(Bus)
  {
  }

  /** A vehicle record. `parkedTime` is the number of whole minutes elapsed
      since check-in, as observed at the moment of check-out; the wall-clock
      computation that produces it is outside this model. */
  datatype Vehicle = Vehicle(
    plate: string,
    vehicleType: VehicleType,
    parkedTime: nat,
    discountCard: Option<string>)

  /** A vehicle has a discount card exactly when a card identifier is present;
      the identifier's value plays no part. */
  predicate HasDiscountCard(v: Vehicle) {
    v.discountCard != None
  }

  /** Vehicle equality: two records denote the same vehicle when their plates
      agree, whatever their other fields say. */
  predicate SameVehicle(a: Vehicle, b: Vehicle) {
    a.plate == b.plate
  }
}
