/**
 * The claim state machine. A claim is Absent or Prepared in the checkpoint; Prepare
 * derives the claim's devices and edits, writes its CDI spec and only then records it
 * in the checkpoint; Unprepare deletes the spec first and then drops the entry. The
 * process-wide mutex makes each call one atomic step, which is how they are modelled.
 */
module DeviceStates {
  import opened Wrappers
  import opened Text
  import CpuApi
  import opened Discovery
  import opened ClaimTypes
  import opened Cdi

  /** The plugin's checkpoint file name (its value is defined outside this model; only its being fixed matters). */
  const CheckpointFile := "checkpoint.json"

  /** The checkpoint library's error for a file that is not there. */
  const CheckpointNotFound := "checkpoint is not found"

  /** The error prepareDevices returns for a claim without an allocation. */
  const NotAllocatedError := "claim not yet allocated"

  /** The checkpoint document: the prepared claims by claim UID. */
  datatype Checkpoint = Checkpoint(preparedClaims: PreparedClaims)

  /** The errors Prepare and Unprepare return, each wrapping the message of the call that failed. */
  datatype StateError =
    | SyncFromCheckpoint(cause: string)
    | PrepareFailed(cause: string)
    | CreateClaimSpecFailed(cause: string)
    | SyncToCheckpoint(cause: string)
    | UnprepareFailed(cause: string)
    | DeleteClaimSpecFailed(cause: string)
  {
    /** The message as the driver formats it. */
    function Message(): string
    {
      match this
      case SyncFromCheckpoint(c) => "unable to sync from checkpoint: " + c
      case PrepareFailed(c) => "prepare failed: " + c
      case CreateClaimSpecFailed(c) => "unable to create CDI spec file for claim: " + c
      case SyncToCheckpoint(c) => "unable to sync to checkpoint: " + c
      case UnprepareFailed(c) => "unprepare failed: " + c
      case DeleteClaimSpecFailed(c) => "unable to delete CDI spec file for claim: " + c
    }
  }

  /** What the two external stores hold: the checkpointed claims and the CDI spec files. */
  datatype Stores = Stores(claims: PreparedClaims, specs: map<string, Spec>)

  /** The stores after one call, and what the call returned. */
  datatype Step<R> = Step(stores: Stores, result: R)

  // ---------------------------------------------------------------------------
  // Specification functions of the helpers

  /** The results owned by `driverName`, in their original order. */
  function FilterForDriver(results: seq<AllocationResult>, driverName: string): seq<AllocationResult>
  {
    if results == [] then []
    else FilterForDriver(results[..|results| - 1], driverName)
         + (if results[|results| - 1].driver == driverName then [results[|results| - 1]] else [])
  }

  /** The device prepared for one allocation result of claim `claimUID`. */
  function PreparedDeviceFor(claimUID: string, result: AllocationResult): PreparedDevice
  {
    PreparedDevice(KubeletDevice([result.request], result.pool, result.device, ClaimDeviceIds(claimUID, [result.device])))
  }

  /** The devices prepared for a claim's results, one per result in order. */
  function PreparedFor(claimUID: string, results: seq<AllocationResult>): PreparedDevices
  {
    if results == [] then []
    else PreparedFor(claimUID, results[..|results| - 1]) + [PreparedDeviceFor(claimUID, results[|results| - 1])]
  }

  /** The decimal "id" of the inventory device named `device`, if there is one. */
  function MatchingIds(allocatable: AllocatableDevices, device: string): seq<string>
    requires InventoryWellFormed(allocatable)
  {
    if device in allocatable then [IntToDecimal(ThreadId(allocatable[device]))] else []
  }

  /** The thread ids of the inventory devices the results name, in result order. */
  function ThreadIds(allocatable: AllocatableDevices, results: seq<AllocationResult>): seq<string>
    requires InventoryWellFormed(allocatable)
  {
    if results == [] then []
    else ThreadIds(allocatable, results[..|results| - 1]) + MatchingIds(allocatable, results[|results| - 1].device)
  }

  /** The environment entry `CPU_<claimName>=<id>,<id>,...`. */
  function CpuEnv(claimName: string, threadIds: seq<string>): string
  {
    "CPU_" + claimName + "=" + Join(threadIds, ",")
  }

  /** The container edits of a claim: one environment entry naming its threads. */
  function ClaimEdits(allocatable: AllocatableDevices, claim: Claim, results: seq<AllocationResult>): ContainerEdits
    requires InventoryWellFormed(allocatable)
  {
    ContainerEdits([CpuEnv(claim.name, ThreadIds(allocatable, results))])
  }

  /** The kubelet devices of prepared devices, in order. */
  function DevicesOf(devices: PreparedDevices): seq<KubeletDevice>
  {
    if devices == [] then [] else DevicesOf(devices[..|devices| - 1]) + [devices[|devices| - 1].device]
  }

  // ---------------------------------------------------------------------------
  // Specification functions of the two state-changing calls

  /**
   * One Prepare call on stores `s`. `load`, `write` and `save` are the outcomes of
   * reading the checkpoint, writing the claim's spec and writing the checkpoint back;
   * `minVersion` is the CDI library's answer for the spec's version.
   */
  function PrepareStep(allocatable: AllocatableDevices, s: Stores, claim: Claim, load: Outcome,
                       minVersion: Result<string, string>, write: Outcome, save: Outcome)
    : Step<Result<seq<KubeletDevice>, StateError>>
    requires InventoryWellFormed(allocatable)
  {
    if load.Fail? then Step(s, Failure(SyncFromCheckpoint(load.error)))
    else if IsPrepared(s.claims, claim.uid) then Step(s, Success(DevicesOf(s.claims[claim.uid])))
    else if claim.allocation.None? then Step(s, Failure(PrepareFailed(NotAllocatedError)))
    else
      var results := FilterForDriver(claim.allocation.value, CpuApi.GroupName);
      var devices := PreparedFor(claim.uid, results);
      var edits := ClaimEdits(allocatable, claim, results);
      var specErr := ClaimSpecWriteError(minVersion, write);
      if specErr.Some? then Step(s, Failure(CreateClaimSpecFailed(specErr.value)))
      else
        var specs := s.specs[ClaimSpecName(claim.uid) := ClaimSpec(claim.uid, devices, edits, minVersion.value)];
        if save.Fail? then Step(Stores(s.claims, specs), Failure(SyncToCheckpoint(save.error)))
        else Step(Stores(s.claims[claim.uid := devices], specs), Success(DevicesOf(devices)))
  }

  /** One Unprepare call on stores `s`; `remove` is the outcome of deleting the claim's spec. */
  function UnprepareStep(s: Stores, claimUID: string, load: Outcome, remove: Outcome, save: Outcome): Step<Option<StateError>>
  {
    if load.Fail? then Step(s, Some(SyncFromCheckpoint(load.error)))
    else if !IsPrepared(s.claims, claimUID) then Step(s, None)
    else if remove.Fail? then Step(s, Some(DeleteClaimSpecFailed(remove.error)))
    else
      var specs := s.specs - {ClaimSpecName(claimUID)};
      if save.Fail? then Step(Stores(s.claims, specs), Some(SyncToCheckpoint(save.error)))
      else Step(Stores(s.claims - {claimUID}, specs), None)
  }

  // ---------------------------------------------------------------------------
  // The checkpoint store

  /** The checkpoint manager; `files` is its directory of checkpoint files, by name. */
  class CheckpointManager {
    var files: map<string, Checkpoint>

    constructor(files: map<string, Checkpoint>)
      ensures this.files == files
    {
      this.files := files;
    }

    /** The names of the checkpoint files, in directory order. */
    method ListCheckpoints(io: Outcome) returns (r: Result<seq<string>, string>)
      ensures io.Fail? ==> r == Failure(io.error)
      ensures io.Pass? ==> r.Success? && forall name :: name in r.value <==> name in files
    {
      if io.Fail? {
        return Failure(io.error);
      }
      var names: seq<string> := [];
      var unlisted := files.Keys;
      while unlisted != {}
        invariant unlisted <= files.Keys
        invariant forall name :: name in names <==> name in files && name !in unlisted
        decreases |unlisted|
      {
        var name :| name in unlisted;
        names := names + [name];
        unlisted := unlisted - {name};
      }
      r := Success(names);
    }

    /** Reads one checkpoint file. */
    method GetCheckpoint(name: string, io: Outcome) returns (r: Result<Checkpoint, string>)
      ensures io.Fail? ==> r == Failure(io.error)
      ensures io.Pass? && name !in files ==> r == Failure(CheckpointNotFound)
      ensures io.Pass? && name in files ==> r == Success(files[name])
    {
      if io.Fail? {
        return Failure(io.error);
      }
      if name !in files {
        return Failure(CheckpointNotFound);
      }
      r := Success(files[name]);
    }

    /** Writes (or overwrites) one checkpoint file atomically. */
    method CreateCheckpoint(name: string, checkpoint: Checkpoint, io: Outcome) returns (err: Option<string>)
      modifies this
      ensures io.Fail? ==> err == Some(io.error) && files == old(files)
      ensures io.Pass? ==> err == None && files == old(files)[name := checkpoint]
    {
      if io.Fail? {
        return Some(io.error);
      }
      files := files[name := checkpoint];
      err := None;
    }
  }

  /** `PreparedDevices.GetDevices`: the kubelet devices of prepared devices, same length and order. */
  method GetDevices(pds: PreparedDevices) returns (devices: seq<KubeletDevice>)
    ensures devices == DevicesOf(pds)
    ensures |devices| == |pds|
    ensures forall i :: 0 <= i < |pds| ==> devices[i] == pds[i].device
  {
    devices := [];
    for i := 0 to |pds|
      invariant devices == DevicesOf(pds[..i])
    {
      assert pds[..i + 1][..i] == pds[..i];
      devices := devices + [pds[i].device];
    }
    assert pds[..|pds|] == pds;
    DevicesOfAt(pds);
  }

  /** DevicesOf keeps length and order. */
  lemma {:induction false} DevicesOfAt(pds: PreparedDevices)
    ensures |DevicesOf(pds)| == |pds|
    ensures forall i :: 0 <= i < |pds| ==> DevicesOf(pds)[i] == pds[i].device
    decreases |pds|
  {
    if pds != [] {
      DevicesOfAt(pds[..|pds| - 1]);
    }
  }

  // ---------------------------------------------------------------------------
  // The device state

  /** The driver's device state: the inventory, the CDI handler and the checkpoint manager. */
  class DeviceState {
    const cdi: CdiHandler
    const allocatable: AllocatableDevices
    const checkpointManager: CheckpointManager

    constructor(cdi: CdiHandler, allocatable: AllocatableDevices, checkpointManager: CheckpointManager)
      ensures this.cdi == cdi && this.allocatable == allocatable && this.checkpointManager == checkpointManager
    {
      this.cdi := cdi;
      this.allocatable := allocatable;
      this.checkpointManager := checkpointManager;
    }

    /** The inventory is well formed and the checkpoint file exists. */
    ghost predicate Valid()
      reads this, checkpointManager
    {
      InventoryWellFormed(allocatable) && CheckpointFile in checkpointManager.files
    }

    /** The checkpointed claims and the spec files, as one value. */
    ghost function Snapshot(): Stores
      reads this, cdi, checkpointManager
      requires Valid()
    {
      Stores(checkpointManager.files[CheckpointFile].preparedClaims, cdi.specs)
    }

    /** `filterDevicesForDriver`: the results owned by `driverName`, in order. */
    method FilterDevicesForDriver(statusDevices: seq<AllocationResult>, driverName: string) returns (filtered: seq<AllocationResult>)
      ensures filtered == FilterForDriver(statusDevices, driverName)
    {
      filtered := [];
      for i := 0 to |statusDevices|
        invariant filtered == FilterForDriver(statusDevices[..i], driverName)
      {
        var device := statusDevices[i];
        assert statusDevices[..i + 1][..i] == statusDevices[..i];
        if device.driver == driverName {
          filtered := filtered + [device];
        }
      }
      assert statusDevices[..|statusDevices|] == statusDevices;
    }

    /**
     * `applyConfig`: for each result, the "id" of every inventory device whose name is
     * the result's device (the inventory is visited in an arbitrary order), joined into
     * one environment entry. It never fails.
     */
    method ApplyConfig(claim: Claim, results: seq<AllocationResult>) returns (edits: ContainerEdits, err: Option<string>)
      requires InventoryWellFormed(allocatable)
      ensures err == None
      ensures edits == ClaimEdits(allocatable, claim, results)
    {
      var threadIds: seq<string> := [];
      for i := 0 to |results|
        invariant threadIds == ThreadIds(allocatable, results[..i])
      {
        var result := results[i];
        var unvisited := allocatable.Keys;
        var matched: seq<string> := [];
        while unvisited != {}
          invariant unvisited <= allocatable.Keys
          invariant matched == if result.device !in unvisited then MatchingIds(allocatable, result.device) else []
          decreases |unvisited|
        {
          var key :| key in unvisited;
          var a := allocatable[key];
          if result.device == a.name {
            matched := matched + [IntToDecimal(ThreadId(a))];
          }
          unvisited := unvisited - {key};
        }
        assert results[..i + 1][..i] == results[..i];
        threadIds := threadIds + matched;
      }
      assert results[..|results|] == results;
      edits := ContainerEdits([CpuEnv(claim.name, threadIds)]);
      err := None;
    }

    /** `prepareDevices`: fails on an unallocated claim; otherwise one prepared device per result of this driver, and the claim's edits. */
    method PrepareDevices(claim: Claim) returns (r: Result<(PreparedDevices, ContainerEdits), string>)
      requires InventoryWellFormed(allocatable)
      ensures claim.allocation.None? ==> r == Failure(NotAllocatedError)
      ensures claim.allocation.Some? ==>
        var results := FilterForDriver(claim.allocation.value, CpuApi.GroupName);
        r == Success((PreparedFor(claim.uid, results), ClaimEdits(allocatable, claim, results)))
    {
      if claim.allocation.None? {
        return Failure(NotAllocatedError);
      }
      var driverResults := FilterDevicesForDriver(claim.allocation.value, CpuApi.GroupName);
      var containerEdit, err := ApplyConfig(claim, driverResults);
      match err {
        case Some(msg) => return Failure("error applying CPU config: " + msg);
        case None =>
      }
      var preparedDevices: PreparedDevices := [];
      for i := 0 to |driverResults|
        invariant preparedDevices == PreparedFor(claim.uid, driverResults[..i])
      {
        var result := driverResults[i];
        var cdiDeviceIds := cdi.GetClaimDevices(claim.uid, [result.device]);
        var device := PreparedDevice(KubeletDevice([result.request], result.pool, result.device, cdiDeviceIds));
        assert driverResults[..i + 1][..i] == driverResults[..i];
        preparedDevices := preparedDevices + [device];
      }
      assert driverResults[..|driverResults|] == driverResults;
      r := Success((preparedDevices, containerEdit));
    }

    /** `unprepareDevices`: the hook for hardware teardown; there is none, so it always succeeds. */
    method UnprepareDevices(claimUID: string, devices: PreparedDevices) returns (err: Option<string>)
      ensures err == None
    {
      err := None;
    }

    /** Prepares a claim; see PrepareStep for what each outcome leaves behind. */
    method Prepare(claim: Claim, load: Outcome, minVersion: Result<string, string>, write: Outcome, save: Outcome)
      returns (r: Result<seq<KubeletDevice>, StateError>)
      requires Valid()
      modifies cdi, checkpointManager
      ensures Valid()
      ensures var step := PrepareStep(allocatable, old(Snapshot()), claim, load, minVersion, write, save);
        Snapshot() == step.stores && r == step.result
      ensures checkpointManager.files == old(checkpointManager.files)[CheckpointFile := Checkpoint(Snapshot().claims)]
    {
      var claimUID := claim.uid;
      var checkpoint := checkpointManager.GetCheckpoint(CheckpointFile, load);
      if checkpoint.Failure? {
        return Failure(SyncFromCheckpoint(checkpoint.error));
      }
      var preparedClaims := checkpoint.value.preparedClaims;

      if claimUID in preparedClaims && preparedClaims[claimUID] != [] {
        var devices := GetDevices(preparedClaims[claimUID]);
        return Success(devices);
      }

      var prepared := PrepareDevices(claim);
      if prepared.Failure? {
        return Failure(PrepareFailed(prepared.error));
      }
      var (preparedDevices, containerEdit) := prepared.value;

      var err := cdi.CreateClaimSpecFile(claimUID, preparedDevices, containerEdit, minVersion, write);
      if err.Some? {
        return Failure(CreateClaimSpecFailed(err.value));
      }

      preparedClaims := preparedClaims[claimUID := preparedDevices];
      err := checkpointManager.CreateCheckpoint(CheckpointFile, Checkpoint(preparedClaims), save);
      if err.Some? {
        return Failure(SyncToCheckpoint(err.value));
      }

      var devices := GetDevices(preparedClaims[claimUID]);
      r := Success(devices);
    }

    /** Unprepares a claim; see UnprepareStep for what each outcome leaves behind. */
    method Unprepare(claimUID: string, load: Outcome, remove: Outcome, save: Outcome) returns (err: Option<StateError>)
      requires Valid()
      modifies cdi, checkpointManager
      ensures Valid()
      ensures var step := UnprepareStep(old(Snapshot()), claimUID, load, remove, save);
        Snapshot() == step.stores && err == step.result
      ensures checkpointManager.files == old(checkpointManager.files)[CheckpointFile := Checkpoint(Snapshot().claims)]
    {
      var checkpoint := checkpointManager.GetCheckpoint(CheckpointFile, load);
      if checkpoint.Failure? {
        return Some(SyncFromCheckpoint(checkpoint.error));
      }
      var preparedClaims := checkpoint.value.preparedClaims;

      if !(claimUID in preparedClaims && preparedClaims[claimUID] != []) {
        return None;
      }

      var e := UnprepareDevices(claimUID, preparedClaims[claimUID]);
      match e {
        case Some(msg) => return Some(UnprepareFailed(msg));
        case None =>
      }

      e := cdi.DeleteClaimSpecFile(claimUID, remove);
      if e.Some? {
        return Some(DeleteClaimSpecFailed(e.value));
      }

      preparedClaims := preparedClaims - {claimUID};
      e := checkpointManager.CreateCheckpoint(CheckpointFile, Checkpoint(preparedClaims), save);
      if e.Some? {
        return Some(SyncToCheckpoint(e.value));
      }
      err := None;
    }
  }

  /** The checkpoint files after start-up: an empty checkpoint is created only when the listing works and none is there. */
  function InitialFiles(files: map<string, Checkpoint>, list: Outcome, create: Outcome): map<string, Checkpoint>
  {
    if list.Pass? && CheckpointFile !in files && create.Pass? then files[CheckpointFile := Checkpoint(map[])] else files
  }

  /** The error start-up reports for the checkpoint, if any. */
  function InitialError(files: map<string, Checkpoint>, list: Outcome, create: Outcome): Option<string>
  {
    if list.Fail? then Some("unable to list checkpoints: " + list.error)
    else if CheckpointFile !in files && create.Fail? then Some("unable to sync to checkpoint: " + create.error)
    else None
  }

  /**
   * The checkpoint part of `NewDeviceState`: scans the listing for the checkpoint file
   * and creates an empty checkpoint only when it is not there.
   */
  method InitCheckpoint(checkpointManager: CheckpointManager, list: Outcome, create: Outcome) returns (err: Option<string>)
    modifies checkpointManager
    ensures err == InitialError(old(checkpointManager.files), list, create)
    ensures checkpointManager.files == InitialFiles(old(checkpointManager.files), list, create)
  {
    var checkpoints := checkpointManager.ListCheckpoints(list);
    if checkpoints.Failure? {
      return Some("unable to list checkpoints: " + checkpoints.error);
    }

    var names := checkpoints.value;
    for i := 0 to |names|
      invariant CheckpointFile !in names[..i]
    {
      if names[i] == CheckpointFile {
        return None;
      }
    }
    assert names[..|names|] == names;

    err := checkpointManager.CreateCheckpoint(CheckpointFile, Checkpoint(map[]), create);
    if err.Some? {
      return Some("unable to sync to checkpoint: " + err.value);
    }
  }

  /**
   * `NewDeviceState`: enumerates the inventory, writes the common spec, then makes sure
   * the checkpoint file exists. `cdi` and `checkpointManager` are the already-created
   * handler and manager; `nodeName` is the NODE_NAME environment variable.
   */
  method NewDeviceState(cdi: CdiHandler, checkpointManager: CheckpointManager, nodeName: string,
                        commonVersion: Result<string, string>, commonWrite: Outcome, list: Outcome, create: Outcome)
    returns (r: Result<DeviceState, string>)
    modifies cdi, checkpointManager
    ensures r.Success? ==>
      && fresh(r.value) && r.value.Valid()
      && r.value.cdi == cdi && r.value.checkpointManager == checkpointManager
      && IsCpuInventory(r.value.allocatable)
    ensures cdi.specs == if commonVersion.Success? && commonWrite.Pass?
                         then old(cdi.specs)[CommonSpecName() := CommonSpec(nodeName, commonVersion.value)]
                         else old(cdi.specs)
    ensures commonVersion.Failure? || commonWrite.Fail? ==>
      r.Failure? && checkpointManager.files == old(checkpointManager.files)
    ensures commonVersion.Success? && commonWrite.Pass? ==>
      && checkpointManager.files == InitialFiles(old(checkpointManager.files), list, create)
      && (r.Success? <==> InitialError(old(checkpointManager.files), list, create).None?)
      && (r.Failure? ==> Some(r.error) == InitialError(old(checkpointManager.files), list, create))
  {
    var allocatable, err := EnumerateAllCpuDevices();
    match err {
      case Some(msg) => return Failure("error enumerating all possible devices: " + msg);
      case None =>
    }

    err := cdi.CreateCommonSpecFile(nodeName, commonVersion, commonWrite);
    if err.Some? {
      return Failure("unable to create CDI spec file for common edits: " + err.value);
    }

    var state := new DeviceState(cdi, allocatable, checkpointManager);
    err := InitCheckpoint(checkpointManager, list, create);
    if err.Some? {
      return Failure(err.value);
    }
    r := Success(state);
  }
}
