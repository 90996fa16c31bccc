/** What Prepare and Unprepare guarantee, stated over their specification functions, and the helpers' properties. */
module StateProperties {
  import opened Wrappers
  import opened Text
  import CpuApi
  import opened Discovery
  import opened ClaimTypes
  import opened Cdi
  import opened DeviceStates

  // ---------------------------------------------------------------------------
  // Helpers: filtering, preparing, thread ids

  /** The filter keeps exactly the results owned by the driver. */
  lemma {:induction false} FilterForDriverMembers(results: seq<AllocationResult>, driverName: string)
    ensures forall r :: r in FilterForDriver(results, driverName) <==> r in results && r.driver == driverName
    decreases |results|
  {
    if results != [] {
      var init := results[..|results| - 1];
      FilterForDriverMembers(init, driverName);
      assert results == init + [results[|results| - 1]];
    }
  }

  /** The filter works piecewise, so it keeps the original order. */
  lemma {:induction false} FilterForDriverAppend(a: seq<AllocationResult>, b: seq<AllocationResult>, driverName: string)
    ensures FilterForDriver(a + b, driverName) == FilterForDriver(a, driverName) + FilterForDriver(b, driverName)
    decreases |b|
  {
    if b == [] {
      assert a + b == a;
    } else {
      var init := b[..|b| - 1];
      assert (a + b)[..|a + b| - 1] == a + init;
      FilterForDriverAppend(a, init, driverName);
    }
  }

  /** Results none of which belong to the driver filter down to nothing. */
  lemma {:induction false} FilterForDriverNone(results: seq<AllocationResult>, driverName: string)
    requires forall i :: 0 <= i < |results| ==> results[i].driver != driverName
    ensures FilterForDriver(results, driverName) == []
    decreases |results|
  {
    if results != [] {
      FilterForDriverNone(results[..|results| - 1], driverName);
    }
  }

  /** A single result is kept exactly when its driver matches. */
  lemma FilterForDriverSingle(r: AllocationResult, driverName: string)
    ensures FilterForDriver([r], driverName) == if r.driver == driverName then [r] else []
  {
    assert [r][..0] == [];
  }

  /** One prepared device per result, in order, each carrying the result's request, pool and device and the claim's CDI ids for it. */
  lemma {:induction false} PreparedForAt(claimUID: string, results: seq<AllocationResult>)
    ensures |PreparedFor(claimUID, results)| == |results|
    ensures forall i :: 0 <= i < |results| ==>
      PreparedFor(claimUID, results)[i].device
        == KubeletDevice([results[i].request], results[i].pool, results[i].device, ClaimDeviceIds(claimUID, [results[i].device]))
    decreases |results|
  {
    if results != [] {
      PreparedForAt(claimUID, results[..|results| - 1]);
    }
  }

  /** No results, no devices: the Go slice stays nil. */
  lemma PreparedForEmpty(claimUID: string, results: seq<AllocationResult>)
    ensures PreparedFor(claimUID, results) == [] <==> results == []
  {
    PreparedForAt(claimUID, results);
  }

  /** When every result names an inventory device, the thread ids are those devices' ids, one per result in order. */
  lemma {:induction false} ThreadIdsOfInventory(allocatable: AllocatableDevices, results: seq<AllocationResult>)
    requires InventoryWellFormed(allocatable)
    requires forall i :: 0 <= i < |results| ==> results[i].device in allocatable
    ensures |ThreadIds(allocatable, results)| == |results|
    ensures forall i :: 0 <= i < |results| ==>
      ThreadIds(allocatable, results)[i] == IntToDecimal(ThreadId(allocatable[results[i].device]))
    decreases |results|
  {
    if results != [] {
      var init := results[..|results| - 1];
      ThreadIdsOfInventory(allocatable, init);
      var last := results[|results| - 1];
      var prev := ThreadIds(allocatable, init);
      var ids := ThreadIds(allocatable, results);
      assert MatchingIds(allocatable, last.device) == [IntToDecimal(ThreadId(allocatable[last.device]))];
      assert ids == prev + [IntToDecimal(ThreadId(allocatable[last.device]))];
      forall i | 0 <= i < |results|
        ensures ids[i] == IntToDecimal(ThreadId(allocatable[results[i].device]))
      {
        if i < |init| {
          assert results[i] == init[i];
          assert ids[i] == prev[i];
        }
      }
    }
  }

  /** `s` reads back as the "id" of some inventory device. */
  ghost predicate ReadsAsInventoryId(allocatable: AllocatableDevices, s: string)
    requires InventoryWellFormed(allocatable)
  {
    exists k :: k in allocatable && ParseSigned(s) == ThreadId(allocatable[k])
  }

  /**
   * Every thread id is a decimal numeral, possibly signed, so it contains no comma, and it
   * reads back as the "id" of an inventory device.
   */
  lemma {:induction false} ThreadIdsAreNumerals(allocatable: AllocatableDevices, results: seq<AllocationResult>)
    requires InventoryWellFormed(allocatable)
    ensures forall i :: 0 <= i < |ThreadIds(allocatable, results)| ==> ',' !in ThreadIds(allocatable, results)[i]
    ensures forall i :: 0 <= i < |ThreadIds(allocatable, results)| ==>
      ReadsAsInventoryId(allocatable, ThreadIds(allocatable, results)[i])
    decreases |results|
  {
    if results != [] {
      var init := results[..|results| - 1];
      var device := results[|results| - 1].device;
      ThreadIdsAreNumerals(allocatable, init);
      var ids := ThreadIds(allocatable, results);
      assert ids == ThreadIds(allocatable, init) + MatchingIds(allocatable, device);
      forall i | 0 <= i < |ids|
        ensures ',' !in ids[i]
        ensures ReadsAsInventoryId(allocatable, ids[i])
      {
        if i < |ThreadIds(allocatable, init)| {
          assert ids[i] == ThreadIds(allocatable, init)[i];
        } else {
          assert ids[i] == IntToDecimal(ThreadId(allocatable[device]));
          IntToDecimalRoundTrip(ThreadId(allocatable[device]));
          assert device in allocatable && ParseSigned(ids[i]) == ThreadId(allocatable[device]);
        }
      }
    }
  }

  /**
   * The environment entry is `CPU_<claimName>=` followed by the thread ids; when there are
   * ids they can be split back off at the commas, and when there are none the entry ends at `=`.
   */
  lemma ClaimEditsEnv(allocatable: AllocatableDevices, claim: Claim, results: seq<AllocationResult>)
    requires InventoryWellFormed(allocatable)
    ensures |ClaimEdits(allocatable, claim, results).env| == 1
    ensures var env := ClaimEdits(allocatable, claim, results).env[0];
      var prefix := "CPU_" + claim.name + "=";
      && |prefix| <= |env| && env[..|prefix|] == prefix
      && (ThreadIds(allocatable, results) != [] ==> Split(env[|prefix|..], ',') == ThreadIds(allocatable, results))
      && (ThreadIds(allocatable, results) == [] ==> env == prefix)
  {
    var ids := ThreadIds(allocatable, results);
    var prefix := "CPU_" + claim.name + "=";
    var env := prefix + Join(ids, ",");
    assert env[..|prefix|] == prefix;
    assert env[|prefix|..] == Join(ids, ",");
    if ids != [] {
      ThreadIdsAreNumerals(allocatable, results);
      SplitJoin(ids, ',');
    } else {
      assert Join(ids, ",") == "";
    }
  }

  /** On the CPU inventory, the device `cpu-t` contributes the thread id `t`. */
  lemma CpuInventoryThreadId(allocatable: AllocatableDevices, t: nat)
    requires IsCpuInventory(allocatable) && InventoryWellFormed(allocatable)
    requires t < NumThreads * NumCores
    ensures MatchingIds(allocatable, CpuName(t)) == [IntToDecimal(t)]
  {
  }

  /** The spec devices qualify to exactly the per-device CDI ids of the prepared devices. */
  lemma PreparedIdsNameSpecDevices(claimUID: string, results: seq<AllocationResult>, edits: ContainerEdits, version: string, i: nat)
    requires i < |results|
    ensures var devices := PreparedFor(claimUID, results);
      && |devices| == |results|
      && |ClaimSpec(claimUID, devices, edits, version).devices| == |devices|
      && |devices[i].device.cdiDeviceIds| == 2
      && QualifiedName(CdiVendor, CdiClass, ClaimSpec(claimUID, devices, edits, version).devices[i].name)
         == devices[i].device.cdiDeviceIds[1]
  {
    var devices := PreparedFor(claimUID, results);
    PreparedForAt(claimUID, results);
    SpecDeviceNamesMatchClaimDeviceIds(claimUID, devices, edits, version, i);
  }

  // ---------------------------------------------------------------------------
  // Start-up

  /**
   * The checkpoint at start-up: a listing failure changes nothing; an existing checkpoint
   * is kept as it is (a restart); a missing one is created empty, or the create error is
   * reported with nothing changed. Whenever no error is reported, the checkpoint exists.
   */
  lemma InitialCheckpointCases(files: map<string, Checkpoint>, list: Outcome, create: Outcome)
    ensures list.Fail? ==>
      InitialError(files, list, create) == Some("unable to list checkpoints: " + list.error) && InitialFiles(files, list, create) == files
    ensures list.Pass? && CheckpointFile in files ==>
      InitialError(files, list, create) == None && InitialFiles(files, list, create) == files
    ensures list.Pass? && CheckpointFile !in files && create.Fail? ==>
      InitialError(files, list, create) == Some("unable to sync to checkpoint: " + create.error) && InitialFiles(files, list, create) == files
    ensures list.Pass? && CheckpointFile !in files && create.Pass? ==>
      InitialError(files, list, create) == None && InitialFiles(files, list, create) == files[CheckpointFile := Checkpoint(map[])]
    ensures InitialError(files, list, create).None? ==> CheckpointFile in InitialFiles(files, list, create)
    ensures InitialFiles(files, list, create) == files || InitialError(files, list, create).None?
  {
  }

  /** Start-up never alters an existing checkpoint, so a restart keeps every prepared claim. */
  lemma RestartKeepsCheckpoint(files: map<string, Checkpoint>, list: Outcome, create: Outcome)
    requires CheckpointFile in files
    ensures InitialFiles(files, list, create) == files
    ensures InitialFiles(files, list, create)[CheckpointFile].preparedClaims == files[CheckpointFile].preparedClaims
  {
  }

  // ---------------------------------------------------------------------------
  // Prepare

  /** An already prepared claim gets its stored devices back and nothing is written. */
  lemma PrepareReturnsStoredEntry(allocatable: AllocatableDevices, s: Stores, claim: Claim, load: Outcome,
                                  minVersion: Result<string, string>, write: Outcome, save: Outcome)
    requires InventoryWellFormed(allocatable)
    requires load.Pass? && IsPrepared(s.claims, claim.uid)
    ensures PrepareStep(allocatable, s, claim, load, minVersion, write, save) == Step(s, Success(DevicesOf(s.claims[claim.uid])))
  {
  }

  /** A claim without an allocation fails with "claim not yet allocated" and nothing is written. */
  lemma PrepareUnallocatedFails(allocatable: AllocatableDevices, s: Stores, claim: Claim, load: Outcome,
                                minVersion: Result<string, string>, write: Outcome, save: Outcome)
    requires InventoryWellFormed(allocatable)
    requires load.Pass? && !IsPrepared(s.claims, claim.uid) && claim.allocation.None?
    ensures PrepareStep(allocatable, s, claim, load, minVersion, write, save) == Step(s, Failure(PrepareFailed("claim not yet allocated")))
  {
  }

  /** If the checkpoint cannot be read, nothing is written. */
  lemma PrepareLoadFailure(allocatable: AllocatableDevices, s: Stores, claim: Claim, load: Outcome,
                           minVersion: Result<string, string>, write: Outcome, save: Outcome)
    requires InventoryWellFormed(allocatable)
    requires load.Fail?
    ensures PrepareStep(allocatable, s, claim, load, minVersion, write, save) == Step(s, Failure(SyncFromCheckpoint(load.error)))
  {
  }

  /** If the claim's spec cannot be written, the checkpoint is not written either and the claim stays unprepared. */
  lemma PrepareSpecFailureWritesNothing(allocatable: AllocatableDevices, s: Stores, claim: Claim, load: Outcome,
                                        minVersion: Result<string, string>, write: Outcome, save: Outcome)
    requires InventoryWellFormed(allocatable)
    requires load.Pass? && !IsPrepared(s.claims, claim.uid) && claim.allocation.Some?
    requires minVersion.Failure? || write.Fail?
    ensures var step := PrepareStep(allocatable, s, claim, load, minVersion, write, save);
      step.stores == s && step.result.Failure? && step.result.error.CreateClaimSpecFailed?
  {
  }

  /** If the checkpoint write fails after the spec was written, the spec stays behind without an entry. */
  lemma PrepareSaveFailureOrphansSpec(allocatable: AllocatableDevices, s: Stores, claim: Claim,
                                      minVersion: Result<string, string>, save: Outcome)
    requires InventoryWellFormed(allocatable)
    requires !IsPrepared(s.claims, claim.uid) && claim.allocation.Some?
    requires minVersion.Success? && save.Fail?
    ensures var step := PrepareStep(allocatable, s, claim, Pass, minVersion, Pass, save);
      && step.result == Failure(SyncToCheckpoint(save.error))
      && step.stores.claims == s.claims
      && ClaimSpecName(claim.uid) in step.stores.specs
      && !IsPrepared(step.stores.claims, claim.uid)
  {
  }

  /**
   * A successful fresh Prepare records the freshly prepared devices under the claim's
   * UID and nowhere else, writes the claim's spec, and returns the devices of the entry it stored.
   */
  lemma PrepareSuccess(allocatable: AllocatableDevices, s: Stores, claim: Claim, version: string)
    requires InventoryWellFormed(allocatable)
    requires !IsPrepared(s.claims, claim.uid) && claim.allocation.Some?
    ensures var step := PrepareStep(allocatable, s, claim, Pass, Success(version), Pass, Pass);
      var results := FilterForDriver(claim.allocation.value, CpuApi.GroupName);
      var devices := PreparedFor(claim.uid, results);
      && step.stores.claims.Keys == s.claims.Keys + {claim.uid}
      && step.stores.claims[claim.uid] == devices
      && (forall uid :: uid in s.claims && uid != claim.uid ==> step.stores.claims[uid] == s.claims[uid])
      && step.stores.specs == s.specs[ClaimSpecName(claim.uid) := ClaimSpec(claim.uid, devices, ClaimEdits(allocatable, claim, results), version)]
      && step.result == Success(DevicesOf(step.stores.claims[claim.uid]))
  {
  }

  /** Whenever Prepare succeeds, it returns the devices of the entry the checkpoint now holds for the claim. */
  lemma PrepareReturnsCheckpointedDevices(allocatable: AllocatableDevices, s: Stores, claim: Claim, load: Outcome,
                                          minVersion: Result<string, string>, write: Outcome, save: Outcome)
    requires InventoryWellFormed(allocatable)
    requires PrepareStep(allocatable, s, claim, load, minVersion, write, save).result.Success?
    ensures var step := PrepareStep(allocatable, s, claim, load, minVersion, write, save);
      claim.uid in step.stores.claims && step.result.value == DevicesOf(step.stores.claims[claim.uid])
  {
  }

  /**
   * Preparing again after a successful Prepare returns the same devices and changes
   * nothing. A claim with no devices of this driver is never recorded as prepared, so
   * for it the second call derives everything again, and matches only if its writes succeed too.
   */
  lemma PrepareIsIdempotent(allocatable: AllocatableDevices, s: Stores, claim: Claim,
                            load: Outcome, minVersion: Result<string, string>, write: Outcome, save: Outcome,
                            load2: Outcome, minVersion2: Result<string, string>, write2: Outcome, save2: Outcome)
    requires InventoryWellFormed(allocatable)
    requires PrepareStep(allocatable, s, claim, load, minVersion, write, save).result.Success?
    requires load2.Pass?
    requires IsPrepared(PrepareStep(allocatable, s, claim, load, minVersion, write, save).stores.claims, claim.uid)
             || (minVersion2 == minVersion && write2.Pass? && save2.Pass?)
    ensures var first := PrepareStep(allocatable, s, claim, load, minVersion, write, save);
      PrepareStep(allocatable, first.stores, claim, load2, minVersion2, write2, save2) == first
  {
    var first := PrepareStep(allocatable, s, claim, load, minVersion, write, save);
    if !IsPrepared(first.stores.claims, claim.uid) {
      var results := FilterForDriver(claim.allocation.value, CpuApi.GroupName);
      var devices := PreparedFor(claim.uid, results);
      var name := ClaimSpecName(claim.uid);
      var spec := ClaimSpec(claim.uid, devices, ClaimEdits(allocatable, claim, results), minVersion.value);
      assert first.stores.specs[name := spec] == first.stores.specs;
      assert first.stores.claims[claim.uid := devices] == first.stores.claims;
    }
  }

  /** A claim none of whose results belong to this driver is never recorded as prepared. */
  lemma ForeignClaimNeverPrepared(allocatable: AllocatableDevices, s: Stores, claim: Claim, load: Outcome,
                                  minVersion: Result<string, string>, write: Outcome, save: Outcome)
    requires InventoryWellFormed(allocatable)
    requires !IsPrepared(s.claims, claim.uid) && claim.allocation.Some?
    requires forall i :: 0 <= i < |claim.allocation.value| ==> claim.allocation.value[i].driver != CpuApi.GroupName
    ensures !IsPrepared(PrepareStep(allocatable, s, claim, load, minVersion, write, save).stores.claims, claim.uid)
  {
    FilterForDriverNone(claim.allocation.value, CpuApi.GroupName);
  }

  /**
   * Such a claim still gets a spec and a nil checkpoint entry, and Unprepare then finds
   * nothing to do: the spec is left behind.
   */
  lemma ForeignClaimSpecOutlivesUnprepare(allocatable: AllocatableDevices, s: Stores, claim: Claim, version: string,
                                          remove: Outcome, save: Outcome)
    requires InventoryWellFormed(allocatable)
    requires !IsPrepared(s.claims, claim.uid) && claim.allocation.Some?
    requires FilterForDriver(claim.allocation.value, CpuApi.GroupName) == []
    ensures var prepared := PrepareStep(allocatable, s, claim, Pass, Success(version), Pass, Pass);
      && prepared.result == Success([])
      && ClaimSpecName(claim.uid) in prepared.stores.specs
      && claim.uid in prepared.stores.claims && prepared.stores.claims[claim.uid] == []
      && UnprepareStep(prepared.stores, claim.uid, Pass, remove, save) == Step(prepared.stores, None)
  {
  }

  // ---------------------------------------------------------------------------
  // Unprepare

  /** Unpreparing a claim the checkpoint does not hold as prepared succeeds and changes nothing. */
  lemma UnprepareAbsentIsNoop(s: Stores, claimUID: string, remove: Outcome, save: Outcome)
    requires !IsPrepared(s.claims, claimUID)
    ensures UnprepareStep(s, claimUID, Pass, remove, save) == Step(s, None)
  {
  }

  /** If the spec cannot be deleted, the entry stays and nothing changes. */
  lemma UnprepareDeleteFailureKeepsEntry(s: Stores, claimUID: string, remove: Outcome, save: Outcome)
    requires IsPrepared(s.claims, claimUID) && remove.Fail?
    ensures UnprepareStep(s, claimUID, Pass, remove, save) == Step(s, Some(DeleteClaimSpecFailed(remove.error)))
  {
  }

  /** A successful Unprepare deletes the claim's spec and removes its entry, and only those. */
  lemma UnprepareSuccess(s: Stores, claimUID: string)
    requires IsPrepared(s.claims, claimUID)
    ensures var step := UnprepareStep(s, claimUID, Pass, Pass, Pass);
      && step.result == None
      && step.stores.claims.Keys == s.claims.Keys - {claimUID}
      && (forall uid :: uid in step.stores.claims ==> step.stores.claims[uid] == s.claims[uid])
      && step.stores.specs == s.specs - {ClaimSpecName(claimUID)}
      && !IsPrepared(step.stores.claims, claimUID)
  {
  }

  /** If the spec is deleted but the checkpoint write fails, the entry stays without its spec. */
  lemma UnprepareSaveFailureUnbacksEntry(s: Stores, claimUID: string, save: Outcome)
    requires IsPrepared(s.claims, claimUID) && save.Fail?
    ensures var step := UnprepareStep(s, claimUID, Pass, Pass, save);
      && step.result == Some(SyncToCheckpoint(save.error))
      && IsPrepared(step.stores.claims, claimUID)
      && ClaimSpecName(claimUID) !in step.stores.specs
  {
  }

  // ---------------------------------------------------------------------------
  // The checkpoint and the spec files together

  /** Every claim the checkpoint holds as prepared has its spec file. */
  ghost predicate EntriesBacked(s: Stores)
  {
    forall uid :: IsPrepared(s.claims, uid) ==> ClaimSpecName(uid) in s.specs
  }

  /** Claim UIDs never contain '/'. */
  ghost predicate SlashFreeUids(claims: PreparedClaims)
  {
    forall uid :: uid in claims ==> '/' !in uid
  }

  /** Prepare never records a claim without its spec, whatever fails. */
  lemma PrepareKeepsEntriesBacked(allocatable: AllocatableDevices, s: Stores, claim: Claim, load: Outcome,
                                  minVersion: Result<string, string>, write: Outcome, save: Outcome)
    requires InventoryWellFormed(allocatable)
    requires EntriesBacked(s)
    ensures EntriesBacked(PrepareStep(allocatable, s, claim, load, minVersion, write, save).stores)
  {
    var step := PrepareStep(allocatable, s, claim, load, minVersion, write, save);
    forall uid | IsPrepared(step.stores.claims, uid)
      ensures ClaimSpecName(uid) in step.stores.specs
    {
      if uid != claim.uid {
        assert IsPrepared(s.claims, uid);
      }
    }
  }

  /**
   * Unprepare keeps every other prepared claim's spec; only a failed checkpoint write
   * after the delete can leave an entry without its spec (UnprepareSaveFailureUnbacksEntry).
   */
  lemma UnprepareKeepsEntriesBacked(s: Stores, claimUID: string, load: Outcome, remove: Outcome, save: Outcome)
    requires EntriesBacked(s)
    requires SlashFreeUids(s.claims) && '/' !in claimUID
    ensures var step := UnprepareStep(s, claimUID, load, remove, save);
      (step.result.Some? && step.result.value.SyncToCheckpoint?) || EntriesBacked(step.stores)
  {
    var step := UnprepareStep(s, claimUID, load, remove, save);
    if step.result.None? || !step.result.value.SyncToCheckpoint? {
      forall uid | IsPrepared(step.stores.claims, uid)
        ensures ClaimSpecName(uid) in step.stores.specs
      {
        assert IsPrepared(s.claims, uid);
        ClaimSpecNameInjective(uid, claimUID);
      }
    }
  }

  /** Prepare followed by Unprepare, both succeeding, removes exactly the claim's entry and spec. */
  lemma PrepareThenUnprepare(allocatable: AllocatableDevices, s: Stores, claim: Claim, version: string)
    requires InventoryWellFormed(allocatable)
    requires !IsPrepared(s.claims, claim.uid) && claim.allocation.Some?
    requires FilterForDriver(claim.allocation.value, CpuApi.GroupName) != []
    ensures var prepared := PrepareStep(allocatable, s, claim, Pass, Success(version), Pass, Pass);
      && IsPrepared(prepared.stores.claims, claim.uid)
      && UnprepareStep(prepared.stores, claim.uid, Pass, Pass, Pass)
         == Step(Stores(s.claims - {claim.uid}, s.specs - {ClaimSpecName(claim.uid)}), None)
  {
    var results := FilterForDriver(claim.allocation.value, CpuApi.GroupName);
    var devices := PreparedFor(claim.uid, results);
    PreparedForEmpty(claim.uid, results);
    var prepared := PrepareStep(allocatable, s, claim, Pass, Success(version), Pass, Pass);
    var name := ClaimSpecName(claim.uid);
    assert prepared.stores.claims - {claim.uid} == s.claims - {claim.uid};
    assert prepared.stores.specs - {name} == s.specs - {name};
  }

  /** In the worked example the device `cpu-5` gets the CDI ids of the common device and of "abc-cpu-5". */
  lemma CpuFiveDeviceIds()
    ensures ClaimDeviceIds("abc", ["cpu-5"])
      == [QualifiedName(CdiVendor, CdiClass, "common"), QualifiedName(CdiVendor, CdiClass, "abc-cpu-5")]
  {
    assert ["cpu-5"][..0] == [];
    assert ClaimDeviceName("abc", "cpu-5") == "abc-cpu-5";
  }

  /** In the worked example the result for `cpu-5` is kept and prepared as one device. */
  lemma CpuFivePrepared()
    ensures var r := AllocationResult("cpu", "cpu.nvidia.com", "pool", "cpu-5");
      var device := KubeletDevice(["cpu"], "pool", "cpu-5",
        [QualifiedName(CdiVendor, CdiClass, "common"), QualifiedName(CdiVendor, CdiClass, "abc-cpu-5")]);
      && FilterForDriver([r], CpuApi.GroupName) == [r]
      && PreparedFor("abc", [r]) == [PreparedDevice(device)]
      && DevicesOf([PreparedDevice(device)]) == [device]
  {
    var r := AllocationResult("cpu", "cpu.nvidia.com", "pool", "cpu-5");
    FilterForDriverSingle(r, CpuApi.GroupName);
    CpuFiveDeviceIds();
    assert [r][..0] == [];
    var pd := PreparedDeviceFor("abc", r);
    assert [pd][..0] == [];
  }

  /** In the worked example the claim's environment entry is `CPU_my-claim=5`. */
  lemma CpuFiveEnv(allocatable: AllocatableDevices)
    requires InventoryWellFormed(allocatable) && IsCpuInventory(allocatable)
    ensures var r := AllocationResult("cpu", "cpu.nvidia.com", "pool", "cpu-5");
      ClaimEdits(allocatable, Claim("abc", "my-claim", Some([r])), [r]).env == ["CPU_my-claim=5"]
  {
    var r := AllocationResult("cpu", "cpu.nvidia.com", "pool", "cpu-5");
    assert NatToDecimal(5) == "5";
    assert IntToDecimal(5) == "5";
    assert CpuName(5) == "cpu-5";
    CpuInventoryThreadId(allocatable, 5);
    assert [r][..0] == [];
    assert ThreadIds(allocatable, [r]) == ["5"];
    assert Join(["5"], ",") == "5";
    assert CpuEnv("my-claim", ["5"]) == "CPU_" + "my-claim" + "=" + "5" == "CPU_my-claim=5";
  }

  /**
   * The worked example: the inventory device `cpu-5` allocated to claim "abc" becomes one
   * prepared device with CDI ids for "common" and "abc-cpu-5", a spec whose environment is
   * `CPU_<claim name>=5`, and a checkpoint entry; Unprepare removes both again.
   */
  lemma CpuFiveExample(allocatable: AllocatableDevices, s: Stores, version: string)
    requires InventoryWellFormed(allocatable) && IsCpuInventory(allocatable)
    requires !IsPrepared(s.claims, "abc")
    ensures var claim := Claim("abc", "my-claim", Some([AllocationResult("cpu", "cpu.nvidia.com", "pool", "cpu-5")]));
      var step := PrepareStep(allocatable, s, claim, Pass, Success(version), Pass, Pass);
      var device := KubeletDevice(["cpu"], "pool", "cpu-5",
        [QualifiedName(CdiVendor, CdiClass, "common"), QualifiedName(CdiVendor, CdiClass, "abc-cpu-5")]);
      && step.result == Success([device])
      && step.stores.claims == s.claims["abc" := [PreparedDevice(device)]]
      && ClaimSpecName("abc") in step.stores.specs
      && step.stores.specs[ClaimSpecName("abc")].containerEdits.env == ["CPU_my-claim=5"]
      && UnprepareStep(step.stores, "abc", Pass, Pass, Pass).stores == Stores(s.claims - {"abc"}, s.specs - {ClaimSpecName("abc")})
  {
    var r := AllocationResult("cpu", "cpu.nvidia.com", "pool", "cpu-5");
    var claim := Claim("abc", "my-claim", Some([r]));
    CpuFivePrepared();
    CpuFiveEnv(allocatable);
    PrepareThenUnprepare(allocatable, s, claim, version);
  }
}
