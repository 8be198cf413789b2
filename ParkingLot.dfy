/** The parking registry: a bounded set of parked vehicles, identified by plate,
    with a register of completed check-outs and gross earnings.

    The registry is given twice. `Lot` with `CheckIn` and `CheckOut` is its
    value: what one operation does to the whole state, and over any run of
    operations (`Run`). The class `Parking` is the registry as the program keeps
    it, a mutable object whose methods change its fields in place. Its
    check-in and check-out methods are proved to do to its fields exactly what
    `CheckIn` and `CheckOut` do to a `Lot`, and `Serve` proves that any
    sequence of those calls leaves the object in the state `Run` computes, so
    the lemmas about runs hold of it. A direct call of `CalculateFee` has no
    counterpart in `Run`: it adds to the earnings without a check-out. */
module ParkingLot {
  import opened Vehicles
  import opened Fees

  /** The capacity of the parking. */
  const MaxVehicles: nat := 5

  /** Number of completed check-outs and sum of the gross fees charged. */
  datatype Register = Register(vehicles: nat, earnings: nat)

  /** The state of the registry. Parked vehicles are keyed by plate, which is
      how a set whose elements compare and hash by plate behaves. */
  datatype Lot = Lot(vehicles: map<string, Vehicle>, register: Register)

  /** Every record is filed under its own plate and capacity is respected. */
  ghost predicate WellFormed(lot: Lot) {
    |lot.vehicles| <= MaxVehicles &&
    forall p :: p in lot.vehicles ==> lot.vehicles[p].plate == p
  }

  /** A fresh registry: no vehicles and a zero register. */
  function EmptyLot(): (lot: Lot)
    ensures WellFormed(lot) && |lot.vehicles| == 0
  {
    Lot(map[], Register(0, 0))
  }

  /** Searching the parked vehicles for one whose plate matches, as a set with
      plate equality is searched, finds exactly the record filed under that
      plate, and finds one exactly when the plate is a key. */
  lemma SearchByPlate(lot: Lot, plate: string)
    requires WellFormed(lot)
    ensures (exists w :: w in lot.vehicles.Values && w.plate == plate) <==> plate in lot.vehicles
    ensures forall w :: w in lot.vehicles.Values && w.plate == plate ==> w == lot.vehicles[plate]
  {
  }

  /** No two parked vehicles are the same vehicle: records equal by plate are
      one and the same record. */
  lemma UniquePerPlate(lot: Lot)
    requires WellFormed(lot)
    ensures forall v, w :: v in lot.vehicles.Values && w in lot.vehicles.Values && SameVehicle(v, w) ==> v == w
  {
  }

  datatype CheckInResult = CheckInResult(lot: Lot, admitted: bool)

  /** Check-in: refused when the lot is full, refused when a vehicle with the
      same plate is parked, otherwise the vehicle is added. */
  function CheckIn(lot: Lot, v: Vehicle): (r: CheckInResult)
    ensures r.admitted <==> |lot.vehicles| < MaxVehicles && v.plate !in lot.vehicles
    ensures !r.admitted ==> r.lot == lot
    ensures r.admitted ==>
              && r.lot.register == lot.register
              && r.lot.vehicles.Keys == lot.vehicles.Keys + {v.plate}
              && r.lot.vehicles[v.plate] == v
              && (forall p :: p in lot.vehicles ==> r.lot.vehicles[p] == lot.vehicles[p])
              && |r.lot.vehicles| == |lot.vehicles| + 1
    ensures WellFormed(lot) ==> WellFormed(r.lot)
  {
    if |lot.vehicles| >= MaxVehicles then CheckInResult(lot, false)
    else if v.plate in lot.vehicles then CheckInResult(lot, false)
    else CheckInResult(lot.(vehicles := lot.vehicles[v.plate := v]), true)
  }

  /** A vehicle equal, by plate, to one already parked is refused, and the
      record already parked stays as it was. */
  lemma DuplicatePlateRejected(lot: Lot, v: Vehicle, w: Vehicle)
    requires WellFormed(lot)
    requires w in lot.vehicles.Values && SameVehicle(w, v)
    ensures !CheckIn(lot, v).admitted
    ensures CheckIn(lot, v).lot.vehicles[v.plate] == w
  {
  }

  /** The outcome of a check-out: the net fee, or no such vehicle. */
  datatype CheckOutOutcome = Success(fee: nat) | NotFound

  datatype CheckOutResult = CheckOutResult(lot: Lot, outcome: CheckOutOutcome)

  /** Check-out: an unknown plate leaves everything as it was; otherwise the
      vehicle is charged its net fee, the register counts one more check-out
      and adds the gross fee, and the vehicle leaves. */
  function CheckOut(lot: Lot, plate: string): (r: CheckOutResult)
    ensures plate !in lot.vehicles ==> r.outcome == NotFound && r.lot == lot
    ensures plate in lot.vehicles ==>
              var v := lot.vehicles[plate];
              && r.outcome == Success(VehicleFee(v))
              && r.lot.register.vehicles == lot.register.vehicles + 1
              && r.lot.register.earnings == lot.register.earnings + GrossFee(v.vehicleType, v.parkedTime)
              && r.lot.vehicles.Keys == lot.vehicles.Keys - {plate}
              && (forall p :: p in r.lot.vehicles ==> r.lot.vehicles[p] == lot.vehicles[p])
              && |r.lot.vehicles| == |lot.vehicles| - 1
    ensures WellFormed(lot) ==> WellFormed(r.lot)
  {
    if plate !in lot.vehicles then CheckOutResult(lot, NotFound)
    else
      var v := lot.vehicles[plate];
      var remaining := lot.vehicles - {plate};
      CheckOutResult(
        Lot(remaining, Register(lot.register.vehicles + 1,
                                lot.register.earnings + GrossFee(v.vehicleType, v.parkedTime))),
        Success(VehicleFee(v)))
  }

  /** Once a vehicle has checked out, checking out the same plate again
      reports that no such vehicle is parked. */
  lemma CheckOutTwiceNotFound(lot: Lot, plate: string)
    requires CheckOut(lot, plate).outcome.Success?
    ensures CheckOut(CheckOut(lot, plate).lot, plate).outcome == NotFound
  {
  }

  /** One request to the registry. */
  datatype Op = CheckInOp(vehicle: Vehicle) | CheckOutOp(plate: string)

  function Step(lot: Lot, op: Op): Lot {
    match op
    case CheckInOp(v) => CheckIn(lot, v).lot
    case CheckOutOp(p) => CheckOut(lot, p).lot
  }

  /** The state after serving the requests in order. */
  function Run(lot: Lot, ops: seq<Op>): Lot
    decreases |ops|
  {
    if ops == [] then lot else Run(Step(lot, ops[0]), ops[1..])
  }

  /** The gross fee a single request charges: one entry for a successful
      check-out, none otherwise. */
  function Charge(lot: Lot, op: Op): seq<nat> {
    match op
    case CheckOutOp(p) =>
      if p in lot.vehicles
      then [GrossFee(lot.vehicles[p].vehicleType, lot.vehicles[p].parkedTime)]
      else []
    case CheckInOp(_) => []
  }

  /** Gross fees of the successful check-outs of a run, in order: an
      independent account of what the register should hold. */
  function ChargedFees(lot: Lot, ops: seq<Op>): seq<nat>
    decreases |ops|
  {
    if ops == [] then [] else Charge(lot, ops[0]) + ChargedFees(Step(lot, ops[0]), ops[1..])
  }

  function Sum(s: seq<nat>): nat
    decreases |s|
  {
    if s == [] then 0 else s[0] + Sum(s[1..])
  }

  lemma {:induction false} SumConcat(a: seq<nat>, b: seq<nat>)
    ensures Sum(a + b) == Sum(a) + Sum(b)
    decreases |a|
  {
    if a != [] {
      assert (a + b)[1..] == a[1..] + b;
      SumConcat(a[1..], b);
    } else {
      assert a + b == b;
    }
  }

  /** Capacity and plate uniqueness hold after any run of requests: the
      number of parked vehicles never exceeds the capacity. */
  lemma {:induction false} RunPreservesWellFormed(lot: Lot, ops: seq<Op>)
    requires WellFormed(lot)
    ensures WellFormed(Run(lot, ops))
    ensures |Run(lot, ops).vehicles| <= MaxVehicles
    decreases |ops|
  {
    if ops != [] {
      RunPreservesWellFormed(Step(lot, ops[0]), ops[1..]);
    }
  }

  /** One request adds to the register one check-out per fee it charges and
      the sum of those fees. */
  lemma StepStatistics(lot: Lot, op: Op)
    ensures Step(lot, op).register.vehicles == lot.register.vehicles + |Charge(lot, op)|
    ensures Step(lot, op).register.earnings == lot.register.earnings + Sum(Charge(lot, op))
  {
  }

  /** The register counts exactly the successful check-outs of a run and adds
      exactly their gross fees. */
  lemma {:induction false} RunStatistics(lot: Lot, ops: seq<Op>)
    ensures Run(lot, ops).register.vehicles == lot.register.vehicles + |ChargedFees(lot, ops)|
    ensures Run(lot, ops).register.earnings == lot.register.earnings + Sum(ChargedFees(lot, ops))
    decreases |ops|
  {
    if ops != [] {
      StepStatistics(lot, ops[0]);
      RunStatistics(Step(lot, ops[0]), ops[1..]);
      SumConcat(Charge(lot, ops[0]), ChargedFees(Step(lot, ops[0]), ops[1..]));
    }
  }

  /** Neither counter of the register ever decreases. */
  lemma RunRegisterMonotone(lot: Lot, ops: seq<Op>)
    ensures Run(lot, ops).register.vehicles >= lot.register.vehicles
    ensures Run(lot, ops).register.earnings >= lot.register.earnings
  {
    RunStatistics(lot, ops);
  }

  /** The registry as the program keeps it: a mutable object. */
  class Parking {
    var vehicles: map<string, Vehicle>
    var parkingRegister: Register

    /** The current state as a value. */
    function Snapshot(): Lot
      reads this
    {
      Lot(vehicles, parkingRegister)
    }

    ghost predicate Valid()
      reads this
    {
      WellFormed(Snapshot())
    }

    constructor ()
      ensures Valid()
      ensures Snapshot() == EmptyLot()
    {
      vehicles := map[];
      parkingRegister := Register(0, 0);
    }

    /** Admits the vehicle unless the lot is full or its plate is parked. */
    method CheckInVehicle(vehicle: Vehicle) returns (admitted: bool)
      requires Valid()
      modifies this
      ensures Valid()
      ensures admitted <==> |old(vehicles)| < MaxVehicles && vehicle.plate !in old(vehicles)
      ensures vehicles == if admitted then old(vehicles)[vehicle.plate := vehicle] else old(vehicles)
      ensures parkingRegister == old(parkingRegister)
      ensures CheckIn(old(Snapshot()), vehicle) == CheckInResult(Snapshot(), admitted)
    {
      if |vehicles| >= MaxVehicles {
        return false;
      }
      if vehicle.plate in vehicles {
        admitted := false;
      } else {
        vehicles := vehicles[vehicle.plate := vehicle];
        admitted := true;
      }
    }

    /** Computes the fee for a stay and adds its gross amount, before any
        discount, to the earnings register. */
    method CalculateFee(vehicleType: VehicleType, parkedTime: nat, hasDiscountCard: bool)
      returns (fee: nat)
      modifies this`parkingRegister
      ensures fee == NetFee(GrossFee(vehicleType, parkedTime), hasDiscountCard)
      ensures parkingRegister.vehicles == old(parkingRegister.vehicles)
      ensures parkingRegister.earnings
              == old(parkingRegister.earnings) + GrossFee(vehicleType, parkedTime)
    {
      var gross: nat := Tarifa(vehicleType);
      if parkedTime > FreeMinutes {
        var total := (parkedTime - FreeMinutes + BlockMinutes - 1) / BlockMinutes;
        gross := gross + total * BlockPrice;
      }
      parkingRegister := parkingRegister.(earnings := parkingRegister.earnings + gross);
      if hasDiscountCard {
        fee := gross * CardPercent / 100;
      } else {
        fee := gross;
      }
    }

    /** Looks the vehicle up by plate; if found, charges it, counts the
        check-out and removes it. The lookup by key is the search of the
        parked vehicles for a matching plate (see `SearchByPlate`). */
    method CheckOutVehicle(plate: string) returns (outcome: CheckOutOutcome)
      requires Valid()
      modifies this
      ensures Valid()
      ensures plate !in old(vehicles) ==> outcome == NotFound && Snapshot() == old(Snapshot())
      ensures plate in old(vehicles) ==>
                var v := old(vehicles)[plate];
                && outcome == Success(VehicleFee(v))
                && parkingRegister == Register(old(parkingRegister.vehicles) + 1,
                                               old(parkingRegister.earnings) + GrossFee(v.vehicleType, v.parkedTime))
                && vehicles == old(vehicles) - {plate}
      ensures CheckOut(old(Snapshot()), plate) == CheckOutResult(Snapshot(), outcome)
    {
      if plate !in vehicles {
        return NotFound;
      }
      var found := vehicles[plate];
      var fee := CalculateFee(found.vehicleType, found.parkedTime, HasDiscountCard(found));
      parkingRegister := parkingRegister.(vehicles := parkingRegister.vehicles + 1);
      vehicles := vehicles - {plate};
      outcome := Success(fee);
    }
  }

  /** Serves the requests in order on a registry object: any sequence of
      check-in and check-out calls leaves the object in the state `Run`
      computes, and so under every lemma about runs. */
  method Serve(parking: Parking, ops: seq<Op>)
    requires parking.Valid()
    modifies parking
    ensures parking.Valid()
    ensures parking.Snapshot() == Run(old(parking.Snapshot()), ops)
  {
    var i := 0;
    while i < |ops|
      invariant 0 <= i <= |ops|
      invariant parking.Valid()
      invariant Run(old(parking.Snapshot()), ops) == Run(parking.Snapshot(), ops[i..])
    {
      assert ops[i..][0] == ops[i] && ops[i..][1..] == ops[i + 1..];
      match ops[i] {
        case CheckInOp(v) =>
          var _ := parking.CheckInVehicle(v);
        case CheckOutOp(p) =>
          var _ := parking.CheckOutVehicle(p);
      }
      i := i + 1;
    }
    assert ops[i..] == [];
  }
}
