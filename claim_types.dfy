/** The values the claim state machine reads and stores: allocation results, claims and prepared devices. */
module ClaimTypes {
  import opened Wrappers

  /** One allocation decision: the device of a pool bound to a request, and the driver that owns it. */
  datatype AllocationResult = AllocationResult(request: string, driver: string, pool: string, device: string)

  /**
   * The parts of a resource claim the driver reads: its UID, its name and its
   * allocation results; `allocation` is None while the claim is not yet allocated.
   */
  datatype Claim = Claim(uid: string, name: string, allocation: Option<seq<AllocationResult>>)

  /** What the kubelet is told about one prepared device. */
  datatype KubeletDevice = KubeletDevice(requestNames: seq<string>, poolName: string, deviceName: string, cdiDeviceIds: seq<string>)

  /** A prepared device as the checkpoint stores it (its per-device container edits are never set, so they are not modelled). */
  datatype PreparedDevice = PreparedDevice(device: KubeletDevice)

  /**
   * The devices prepared for one claim. Go distinguishes a nil slice from an empty
   * one; the driver only ever stores nil for "no devices", so the empty sequence stands for nil.
   */
  type PreparedDevices = seq<PreparedDevice>

  /** The checkpointed map from claim UID to its prepared devices. */
  type PreparedClaims = map<string, PreparedDevices>

  /** Go's `preparedClaims[uid] != nil`: the key is present and its slice is not nil. */
  predicate IsPrepared(claims: PreparedClaims, uid: string)
  {
    uid in claims && claims[uid] != []
  }
}
