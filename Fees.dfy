/** The fee schedule of the parking: a base rate by vehicle class, a surcharge
    of 5 for every started 15-minute block beyond the first 120 minutes, and a
    15% discount, truncated, for holders of a discount card. The arithmetic is
    exact integer arithmetic. */
module Fees {
  import opened Vehicles

  const FreeMinutes: nat := 120
  const BlockMinutes: nat := 15
  const BlockPrice: nat := 5
  /** Percentage of the gross fee a cardholder pays. */
  const CardPercent: nat := 85

  /** Number of started 15-minute blocks beyond the first 120 minutes: the
      ceiling of (parkedTime - 120) / 15, and none inside the free window. */
  function OvertimeBlocks(parkedTime: nat): (n: nat)
    ensures parkedTime <= FreeMinutes ==> n == 0
    ensures parkedTime > FreeMinutes ==>
              n >= 1 && BlockMinutes * (n - 1) < parkedTime - FreeMinutes <= BlockMinutes * n
  {
    if parkedTime <= FreeMinutes then 0
    else (parkedTime - FreeMinutes + BlockMinutes - 1) / BlockMinutes
  }

  /** The fee before any discount: the base rate plus the overtime surcharge.
      This is the amount the earnings register accumulates. */
  function GrossFee(t: VehicleType, parkedTime: nat): nat {
    Tarifa(t) + BlockPrice * OvertimeBlocks(parkedTime)
  }

  /** The fee the customer pays: the gross fee without a card, and 85% of it
      truncated to an integer with one. */
  function NetFee(gross: nat, hasDiscountCard: bool): (r: nat)
    ensures !hasDiscountCard ==> r == gross
    ensures hasDiscountCard ==> 100 * r <= CardPercent * gross < 100 * r + 100
    ensures r <= gross
  {
    if hasDiscountCard then gross * CardPercent / 100 else gross
  }

  /** The fee charged for a vehicle at check-out. */
  function VehicleFee(v: Vehicle): nat {
    NetFee(GrossFee(v.vehicleType, v.parkedTime), HasDiscountCard(v))
  }

  /** Within the free window the gross fee is the base rate of the class. */
  lemma NoSurchargeWithinFreeWindow(t: VehicleType, parkedTime: nat)
    requires parkedTime <= FreeMinutes
    ensures GrossFee(t, parkedTime) == Tarifa(t)
  {
  }

  /** Beyond the free window, a stay that ends inside the k-th started block
      costs exactly k blocks: every started block is billed in full. */
  lemma SurchargePerStartedBlock(t: VehicleType, parkedTime: nat, k: nat)
    requires 1 <= k
    requires FreeMinutes + BlockMinutes * (k - 1) < parkedTime <= FreeMinutes + BlockMinutes * k
    ensures GrossFee(t, parkedTime) == Tarifa(t) + BlockPrice * k
  {
  }

  /** The boundaries of the first two blocks: 120 minutes add nothing, 121 and
      135 minutes add one block, 136 minutes add two. */
  lemma OvertimeBoundaries(t: VehicleType)
    ensures GrossFee(t, 120) == Tarifa(t)
    ensures GrossFee(t, 121) == Tarifa(t) + 5
    ensures GrossFee(t, 135) == Tarifa(t) + 5
    ensures GrossFee(t, 136) == Tarifa(t) + 10
  {
    SurchargePerStartedBlock(t, 121, 1);
    SurchargePerStartedBlock(t, 135, 1);
    SurchargePerStartedBlock(t, 136, 2);
  }

  /** A longer stay never costs less before discount. */
  lemma GrossFeeMonotone(t: VehicleType, p1: nat, p2: nat)
    requires p1 <= p2
    ensures GrossFee(t, p1) <= GrossFee(t, p2)
  {
  }

  /** The discount never turns a larger gross fee into a smaller net fee. */
  lemma NetFeeMonotone(g1: nat, g2: nat, hasDiscountCard: bool)
    requires g1 <= g2
    ensures NetFee(g1, hasDiscountCard) <= NetFee(g2, hasDiscountCard)
  {
  }

  /** For a fixed class and card status the fee paid is non-decreasing in the
      time parked. */
  lemma FeeMonotone(t: VehicleType, p1: nat, p2: nat, hasDiscountCard: bool)
    requires p1 <= p2
    ensures NetFee(GrossFee(t, p1), hasDiscountCard) <= NetFee(GrossFee(t, p2), hasDiscountCard)
  {
    GrossFeeMonotone(t, p1, p2);
    NetFeeMonotone(GrossFee(t, p1), GrossFee(t, p2), hasDiscountCard);
  }

  /** A car parked for no time pays 20 without a card and 17 with one. */
  lemma CarAtCheckIn(plate: string, card: string)
    ensures VehicleFee(Vehicle(plate, Car, 0, None)) == 20
    ensures VehicleFee(Vehicle(plate, Car, 0, Some(card))) == 17
  {
  }
}
