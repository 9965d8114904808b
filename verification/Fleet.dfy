/** Whether a vehicle suits a cargo and a driver may take an assignment. */
module Fleet {
  import opened Domain

  datatype Suitability = Suitability(compatible: bool, selectable: bool)

  function CoolingTarget(cargo: Cargo): Option<int> {
    if cargo.requiredTemp.Some? then cargo.requiredTemp else if cargo.needsReefer then Some(-1800) else None
  }

  predicate IsReefer(v: Vehicle) {
    v.refrigerated || v.kind == ReeferTruck
  }

  function EvaluateVehicle(v: Vehicle, cargo: Cargo, activeOrders: nat): Suitability {
    var target := CoolingTarget(cargo);
    if cargo.needsReefer && !IsReefer(v) then Suitability(false, false)
    else if cargo.needsReefer && target.Some? && v.minTemp.Some? && target.value < v.minTemp.value
    then Suitability(false, false)
    else if v.status == InService then Suitability(true, false)
    else if v.status == VehicleStatus.Maintenance then Suitability(true, false)
    else if 0 < activeOrders then Suitability(true, false)
    else if 0 < cargo.volume && 100 * v.maxVolume < cargo.volume then Suitability(false, false)
    else if 0 < cargo.weight && v.maxWeight < cargo.weight then Suitability(false, false)
    else Suitability(true, true)
  }

  function EvaluateDriver(d: User, activeOrders: nat, now: int): Suitability {
    if d.role != Driver then Suitability(false, false)
    else if d.status != UserStatus.Active then Suitability(false, false)
    else if d.licenseExpiry.Some? && d.licenseExpiry.value < now then Suitability(false, false)
    else if 0 < activeOrders then Suitability(true, false)
    else Suitability(true, true)
  }

  /** A cargo fits a vehicle: cooled down to -18 degrees if any of it is cold, within both limits. */
  predicate Carries(v: Vehicle, reefer: bool, volume: int, weight: int) {
    && (reefer ==> (v.refrigerated || v.kind == ReeferTruck) && (v.minTemp.Some? ==> v.minTemp.value <= -1800))
    && (0 < volume ==> volume <= 100 * v.maxVolume)
    && (0 < weight ==> weight <= v.maxWeight)
  }
}
