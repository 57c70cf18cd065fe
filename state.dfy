/** The connection state and the state snapshot of crates/core/src/state.rs. */
module States {
  import opened Wrappers

  datatype DeviceState = Disconnected | Connecting | Connected | Disconnecting | Error

  /** The three battery levels and the charging flag. */
  datatype BatteryInfo = BatteryInfo(leftBud: byte, rightBud: byte, caseLevel: byte, isCharging: bool)

  datatype AncMode = Off | Active | Transparency | Adaptive

  datatype DeviceStateInfo = DeviceStateInfo(
    connectionState: DeviceState, battery: Option<BatteryInfo>, ancMode: Option<AncMode>,
    firmwareVersion: Option<string>, lastUpdated: u64)

  /** `DeviceStateInfo::new`, which `Default` also returns: a disconnected
      device of which nothing is known yet, stamped 0 (no clock is read). */
  function NewDeviceStateInfo(): (r: DeviceStateInfo)
    ensures r.connectionState == Disconnected
    ensures r.battery.None? && r.ancMode.None? && r.firmwareVersion.None?
    ensures r.lastUpdated == 0
  {
    DeviceStateInfo(Disconnected, None, None, None, 0)
  }
}
