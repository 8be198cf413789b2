# Parking registry

A model of the `Parking` registry of a Swift playground. The registry keeps the
set of vehicles currently parked, at most 5 of them, with one vehicle per
plate: vehicles compare and hash by plate alone. It also keeps a register of
completed check-outs and of gross earnings. Check-in admits a vehicle unless
the lot is full or its plate is already parked. Check-out looks a vehicle up by
plate, prices its stay, counts the check-out and removes the vehicle. The
price is a base rate by vehicle class (car 20, motorcycle 15, minibus 25,
bus 30), plus 5 for every started 15-minute block beyond 120 minutes, less a
truncated 15% for holders of a discount card. The earnings register receives
the fee before the discount.

Three modules, one per part of the source:

- `Vehicles` (`Vehicles.dfy`): `VehicleType` and its rate `Tarifa`, the `Vehicle`
  record, `HasDiscountCard`, and `SameVehicle`, the plate-only equality.
- `Fees` (`Fees.dfy`): the fee arithmetic as pure functions (`OvertimeBlocks`,
  `GrossFee`, `NetFee`, `VehicleFee`), with lemmas on block boundaries,
  rounding and monotonicity.
- `ParkingLot` (`ParkingLot.dfy`): the registry state as a value `Lot`. Vehicles
  are held in a map keyed by plate. `CheckIn` and `CheckOut` are the effect of
  one request, and `Run` is the effect of any sequence of requests. The class
  `Parking` is the mutable registry itself. Its methods `CheckInVehicle`,
  `CalculateFee` and `CheckOutVehicle` change its fields in place, as the
  source's `mutating` methods do. `CheckInVehicle` and `CheckOutVehicle` are
  proved to match `CheckIn` and `CheckOut`. `Serve` proves that any sequence of
  check-in and check-out calls leaves the object in the state `Run` computes,
  so the lemmas about runs apply to such sequences. A direct call of
  `CalculateFee` is outside them: it adds to the earnings without a check-out.

The result callbacks become return values. Check-in returns a `bool`, and
check-out returns `Success(fee)` or `NotFound`. The elapsed minutes that the
source reads from the clock at check-out are a `nat` field, `parkedTime`, of the
vehicle record.

Choices that follow the source:

- The capacity is 5 (Contents.swift:6).
- `calculateFee` itself adds the gross fee to the earnings register (line 65).
- `calculateFee` is callable from outside the registry, so earnings can grow
  without a check-out. `RunStatistics` is stated over runs of check-ins and
  check-outs.

## Model

| member | source | states |
|---|---|---|
| Vehicles.Tarifa | MyPlayground.playground/Contents.swift:93-100 | base rates lie between 15 and 30; only a motorcycle pays 15 and only a bus pays 30 |
| Vehicles.BaseRates | MyPlayground.playground/Contents.swift:93-100 | car 20, motorcycle 15, minibus 25, bus 30, strictly increasing from motorcycle to bus |
| Fees.OvertimeBlocks | MyPlayground.playground/Contents.swift:58-61 | no blocks up to 120 minutes; beyond that, the least n with parkedTime - 120 <= 15n, so the ceiling |
| Fees.NetFee | MyPlayground.playground/Contents.swift:63-67 | without a card the net fee is the gross fee; with one it is 85% of gross truncated (100r <= 85g < 100r + 100); never above gross |
| Fees.NoSurchargeWithinFreeWindow | MyPlayground.playground/Contents.swift:56-61 | a stay of at most 120 minutes costs the base rate |
| Fees.SurchargePerStartedBlock | MyPlayground.playground/Contents.swift:56-61 | a stay ending inside the k-th started block after 120 minutes costs base + 5k |
| Fees.OvertimeBoundaries | MyPlayground.playground/Contents.swift:58-61 | 120 minutes add nothing, 121 and 135 add 5, 136 adds 10 |
| Fees.GrossFeeMonotone | MyPlayground.playground/Contents.swift:56-61 | the gross fee is non-decreasing in parked time |
| Fees.NetFeeMonotone | MyPlayground.playground/Contents.swift:63-67 | the truncated discount preserves the order of gross fees |
| Fees.FeeMonotone | MyPlayground.playground/Contents.swift:54-68 | for fixed class and card status the fee paid is non-decreasing in parked time |
| Fees.CarAtCheckIn | MyPlayground.playground/Contents.swift:54-68 | a car parked 0 minutes pays 20 without a card and 17 with any card (card presence, line 114) |
| ParkingLot.EmptyLot | MyPlayground.playground/Contents.swift:5-11 | a new registry is well formed and holds no vehicles |
| ParkingLot.UniquePerPlate | MyPlayground.playground/Contents.swift:81-83 | in a well-formed lot, two parked records equal by plate are the same record |
| ParkingLot.SearchByPlate | MyPlayground.playground/Contents.swift:32-42 | searching the parked vehicles for a matching plate succeeds exactly when the plate is a key, and finds the record filed under it |
| ParkingLot.CheckIn | MyPlayground.playground/Contents.swift:13-28 | admitted iff fewer than 5 parked and plate absent; refusal changes nothing; success adds exactly that vehicle, keeps the others and the register; capacity and key = plate are preserved |
| ParkingLot.DuplicatePlateRejected | MyPlayground.playground/Contents.swift:20-25 | a vehicle equal by plate to a parked one is refused and the parked record is kept, not replaced |
| ParkingLot.CheckOut | MyPlayground.playground/Contents.swift:30-51 | an unknown plate gives NotFound and no change; a parked one gives its net fee, the register gains one check-out and the gross fee, only that plate leaves; well-formedness preserved |
| ParkingLot.CheckOutTwiceNotFound | MyPlayground.playground/Contents.swift:44-49 | after a successful check-out the same plate reports NotFound |
| ParkingLot.RunPreservesWellFormed | MyPlayground.playground/Contents.swift:15-23 | after any sequence of requests at most 5 vehicles are parked and each is filed under its own plate |
| ParkingLot.StepStatistics | MyPlayground.playground/Contents.swift:44-65 | one request adds one check-out and its gross fee to the register for a successful check-out, and nothing otherwise |
| ParkingLot.RunStatistics | MyPlayground.playground/Contents.swift:44-65 | after any sequence of requests the count grew by the number of successful check-outs and earnings by the sum of their gross fees |
| ParkingLot.RunRegisterMonotone | MyPlayground.playground/Contents.swift:44-65 | neither register counter ever decreases over a run |
| ParkingLot.Parking.constructor | MyPlayground.playground/Contents.swift:5-11 | the registry starts empty with a zero register |
| ParkingLot.Parking.CheckInVehicle | MyPlayground.playground/Contents.swift:13-28 | in place: the new fields are exactly those of CheckIn on the old state, the register is untouched, the invariant is kept |
| ParkingLot.Parking.CalculateFee | MyPlayground.playground/Contents.swift:54-68 | returns the net fee and adds the gross (pre-discount) fee to earnings, leaving the check-out count alone |
| ParkingLot.Parking.CheckOutVehicle | MyPlayground.playground/Contents.swift:30-51 | in place: the new fields and the outcome are exactly those of CheckOut on the old state, the invariant is kept |
| ParkingLot.Serve | MyPlayground.playground/Contents.swift:13-51 | any sequence of check-in and check-out calls on the object leaves it valid and in the state Run computes from its old state |

## Left out

- The demo driver: the alert closures, the fifteen sample vehicles, the check-in loop, the sample check-out and all printing (Contents.swift:124-199).
- Wall-clock time: `checkInTime` and the `Calendar` minute computation of `parkedTime`. The elapsed minutes are a `nat` field supplied by the caller. A negative minute count, which the source would produce for a check-in time in the future, is not representable. The source charges it the base rate, as the model does for 0.
- Floating point: the ceiling of `Double(parkedTime - 120) / 15.0` and `Int(Double(fee) * 0.85)` are modelled as the exact integers `(parkedTime - 120 + 14) / 15` and `fee * 85 / 100`. These agree for fees and durations far below 2^53.
- Integer width: Swift's 64-bit `Int` traps on overflow; the model's integers are unbounded.
- Callbacks: `onFinish`, `onSuccess` and `onError` become return values. In the source, `calculateFee` has already added the gross fee to the earnings (line 65) when `onSuccess` is called (line 46); the check-out count (line 47) and the removal (line 49) come after it. The model does not keep the position of the callback between these updates.
- `Hashable`/`Hasher` and the `Parkable` protocol: identity by plate is captured by keying the map by plate (`SearchByPlate`, `DuplicatePlateRejected`), and `hasDiscountCard` is the plain predicate `HasDiscountCard`.
- A statistics accessor and a listing of parked plates: the source has neither (`vehicles` and `parkingRegister` are private), so they are not modelled.
- Plate comparison: Swift compares and hashes `String` values up to Unicode canonical equivalence, so `"\u{C4}B1"` and `"A\u{308}B1"` are the same plate there. In the model plates are `seq<char>` compared code point by code point, so those two plates are different vehicles: both are admitted, and checking out one does not find the other.
