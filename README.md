# NUMA-aware CPU kubelet plugin: claim preparation, modelled in Dafny

This project models the core of the example NUMA-aware CPU DRA (Dynamic Resource
Allocation) kubelet plugin. That core is the state machine that prepares and unprepares
resource claims.

- **Inventory.** The plugin enumerates a fixed inventory of 32 CPU devices. These are 16
  cores with 2 hardware threads each, over two NUMA nodes.
- **Prepare.** For each claim handed to it, the plugin:
  - filters the claim's allocation results down to its own driver (`cpu.nvidia.com`);
  - builds one prepared device per result, whose CDI device ids are the common device
    and `<claimUID>-<device>`;
  - writes a CDI (Container Device Interface) spec file for the claim, with the
    environment entry `CPU_<claim name>=<thread ids>`;
  - only then records the claim in its checkpoint file.
- **Unprepare.** This reverses Prepare: it deletes the spec first, then drops the
  checkpoint entry.

The two external stores are fields of two classes:

- the spec directory is `Cdi.CdiHandler.specs`, keyed by spec file name;
- the checkpoint directory is `DeviceStates.CheckpointManager.files`, keyed by file name.

`DeviceStates.DeviceState.Prepare` and `Unprepare` are imperative methods that follow
the Go code statement by statement. Each is proved to leave exactly the stores given by
a specification function (`PrepareStep`, `UnprepareStep`) and to return exactly its
result. The lemmas in `StateProperties` then state, over those functions:

- what each outcome leaves behind;
- idempotence;
- the Prepare/Unprepare round trip;
- the invariant that every prepared claim has its spec.

Every call into a library that can fail (checkpoint reads and writes, spec writes and
removals, the CDI minimum-version lookup) has its outcome passed in as a parameter
(`Outcome`, or a `Result` for the version). So each method covers every combination
of failures.

Files and modules:

| file | module | contents |
|---|---|---|
| wrappers.dfy | Wrappers | `Option`, `Result`, and `Outcome` (a library call's success or failure message) |
| text.dfy | Text | Go's `%d` formatting, `strings.Join`/`strings.Split` on one character, one-character replacement |
| api.dfy | CpuApi | the API group constants, `DefaultCpuConfig`, `Normalize`, `Validate` |
| discovery.dfy | Discovery | the device types and `enumerateAllCPUDevices` |
| claim_types.dfy | ClaimTypes | claims, allocation results, kubelet and prepared devices, the checkpoint's claim map |
| cdi.dfy | Cdi | the CDI constants and names, the spec shapes, the `CDIHandler` |
| state.dfy | DeviceStates | the checkpoint manager, the specification functions, `DeviceState` and `NewDeviceState` |
| state_properties.dfy | StateProperties | the lemmas about Prepare and Unprepare and their helpers |

How Go values are represented:

- A nil slice and an empty slice are both `[]`. The plugin only ever stores nil for a
  claim without devices, so "the checkpoint holds a non-nil entry" is
  `ClaimTypes.IsPrepared`: the key is present and the sequence is non-empty.
- A nil `*CpuConfig` is `None`.

## Model

| member | source | states |
|---|---|---|
| CpuApi.DefaultCpuConfigValues | api/nvidia.com/resource/cpu/v1alpha1/api.go:29-57 | The default config has apiVersion "cpu.nvidia.com/v1alpha1", kind "CpuConfig" and count 16, and it validates. |
| CpuApi.Normalize | api/nvidia.com/resource/cpu/v1alpha1/api.go:60-65 | Fails with "config is 'nil'" exactly on a nil config. Otherwise succeeds and leaves the config unchanged. |
| CpuApi.Validate | api/nvidia.com/resource/cpu/v1alpha1/api.go:68-73 | Fails with "config is 'nil'" exactly on a nil config. Succeeds on every other config. |
| CpuApi.NormalizeIdempotent | api/nvidia.com/resource/cpu/v1alpha1/api.go:60-65 | Normalizing a normalized config gives the same config and the same error. |
| CpuApi.ValidateAfterNormalize | api/nvidia.com/resource/cpu/v1alpha1/api.go:60-73 | Validating the result of Normalize reports an error exactly when Normalize did. |
| Text.NatToDecimal | cmd/example-numa-aware-cpu-kubeletplugin/discovery.go:48 | `%d` of a natural number is a non-empty string of decimal digits with no leading zero; it is one digit exactly below 10. |
| Text.IntToDecimal | cmd/example-numa-aware-cpu-kubeletplugin/state.go:227 | `%d` of an integer is non-empty and starts with '-' exactly for negatives. The rest is decimal digits, so it has no comma. |
| Text.IntToDecimalRoundTrip | cmd/example-numa-aware-cpu-kubeletplugin/state.go:227 | `%d` of any integer, possibly negative, reads back as that integer. |
| Text.ParseNatToDecimal | cmd/example-numa-aware-cpu-kubeletplugin/state.go:227 | Reading the decimal text back gives the number again. |
| Text.NatToDecimalInjective | cmd/example-numa-aware-cpu-kubeletplugin/discovery.go:48 | Distinct numbers have distinct decimal texts. |
| Text.SplitJoin | cmd/example-numa-aware-cpu-kubeletplugin/state.go:233 | Splitting a comma-join at the comma gives back the parts, when no part contains a comma. |
| Text.ReplaceAbsentChar | cmd/example-numa-aware-cpu-kubeletplugin/cdi.go:85 | Replacing a character that does not occur leaves the text unchanged. |
| Discovery.CpuNameInjective | cmd/example-numa-aware-cpu-kubeletplugin/discovery.go:48 | Distinct threads get distinct device names `cpu-<thread>`. |
| Discovery.EnumerateAllCpuDevices | cmd/example-numa-aware-cpu-kubeletplugin/discovery.go:26-75 | Never fails. The result holds exactly the 32 devices `cpu-0` … `cpu-31`; each is keyed by its own name, and `cpu-t` is the device of thread t. |
| Discovery.CpuInventorySize | cmd/example-numa-aware-cpu-kubeletplugin/discovery.go:29-31 | The CPU inventory has exactly 32 entries (`numThreads*numCores`). |
| Discovery.CpuNamesCount | cmd/example-numa-aware-cpu-kubeletplugin/discovery.go:31 | The threads below n have exactly n distinct device names. |
| Discovery.CpuDeviceAttributes | cmd/example-numa-aware-cpu-kubeletplugin/discovery.go:32-69 | For `cpu-t`: id is t, parentID is t mod 16 (in [0,16)), NUMA node is 0 for cores below 8 and 1 otherwise, architecture "amd64", driverVersion "1.0.0", memory "80Gi". |
| Discovery.SiblingThreadsShareCore | cmd/example-numa-aware-cpu-kubeletplugin/discovery.go:34-44 | Threads t and t+16 have the same parentID t and the same NUMA node. |
| Cdi.CdiConstants | cmd/example-numa-aware-cpu-kubeletplugin/cdi.go:28-34 | The CDI vendor is "k8s." + the driver name, the class is "cpu", and the kind is vendor + "/" + class. |
| Cdi.QualifiedNameInjective | cmd/example-numa-aware-cpu-kubeletplugin/cdi.go:117-121 | For the driver's vendor and class, distinct device names qualify to distinct CDI ids. |
| Cdi.ClaimSpecNameInjective | cmd/example-numa-aware-cpu-kubeletplugin/cdi.go:84-113 | Create and delete name a claim's spec file with the same function of the claim UID. For UIDs without '/', distinct UIDs get distinct files, and none is the common spec's file unless the UID is "common". |
| Cdi.ClaimDeviceIdsShape | cmd/example-numa-aware-cpu-kubeletplugin/cdi.go:115-126 | There is one id more than there are devices. The first is the common device; element i+1 qualifies `<claimUID>-<devices[i]>`. |
| Cdi.ClaimSpecShape | cmd/example-numa-aware-cpu-kubeletplugin/cdi.go:87-105 | The claim spec has the driver's kind and the given version. It has one device `<claimUID>-<device name>` per prepared device, in order, and the claim's edits at spec level. |
| Cdi.CommonSpecShape | cmd/example-numa-aware-cpu-kubeletplugin/cdi.go:55-68 | The common spec has the driver's kind and one device "common". That device has exactly two environment entries: the node name and the driver name. |
| Cdi.CdiHandler.WriteSpec | cmd/example-numa-aware-cpu-kubeletplugin/cdi.go:100-107 | The cache write adds or overwrites one spec file on success, and changes nothing on failure. |
| Cdi.CdiHandler.CreateCommonSpecFile | cmd/example-numa-aware-cpu-kubeletplugin/cdi.go:54-82 | Fails with the version-lookup message or the write's error. It writes the common spec, with the looked-up version, exactly when both succeed, and otherwise changes nothing. |
| Cdi.CdiHandler.CreateClaimSpecFile | cmd/example-numa-aware-cpu-kubeletplugin/cdi.go:84-108 | Returns the version-lookup error, else the write error. On success, writes exactly the claim spec under the claim's spec name; on failure, changes nothing. |
| Cdi.CdiHandler.DeleteClaimSpecFile | cmd/example-numa-aware-cpu-kubeletplugin/cdi.go:110-113 | On success, removes exactly the claim's spec file (possibly absent). On failure, changes nothing. |
| Cdi.CdiHandler.GetClaimDevices | cmd/example-numa-aware-cpu-kubeletplugin/cdi.go:115-126 | Returns `1 + |devices|` ids: first the common device, then `<claimUID>-<devices[i]>` in input order. |
| Cdi.SpecDeviceNamesMatchClaimDeviceIds | cmd/example-numa-aware-cpu-kubeletplugin/cdi.go:92-122 | Spec device i qualifies to the per-device id that GetClaimDevices lists for that device. |
| DeviceStates.CheckpointManager.ListCheckpoints | cmd/example-numa-aware-cpu-kubeletplugin/state.go:91-94 | Fails exactly when the listing fails. Otherwise lists exactly the checkpoint files present. |
| DeviceStates.CheckpointManager.GetCheckpoint | cmd/example-numa-aware-cpu-kubeletplugin/state.go:116-120 | Returns the stored checkpoint. A missing file gives "checkpoint is not found"; a read failure gives its error. |
| DeviceStates.CheckpointManager.CreateCheckpoint | cmd/example-numa-aware-cpu-kubeletplugin/state.go:135-138 | On success, writes exactly the one checkpoint file. On failure, changes nothing. |
| DeviceStates.GetDevices | cmd/example-numa-aware-cpu-kubeletplugin/state.go:49-55 | Returns the kubelet device of each prepared device, same length, same order. |
| DeviceStates.DevicesOfAt | cmd/example-numa-aware-cpu-kubeletplugin/state.go:49-55 | The specification of GetDevices keeps length and order, element by element. |
| DeviceStates.DeviceState.FilterDevicesForDriver | cmd/example-numa-aware-cpu-kubeletplugin/state.go:202-210 | Returns the results of the given driver, in order (membership and order are in FilterForDriverMembers and FilterForDriverAppend). |
| DeviceStates.DeviceState.ApplyConfig | cmd/example-numa-aware-cpu-kubeletplugin/state.go:222-239 | Never fails. The inventory is visited in any order, yet the result is always one entry `CPU_<claim name>=` followed by the matching ids in result order (ClaimEditsEnv). |
| DeviceStates.DeviceState.PrepareDevices | cmd/example-numa-aware-cpu-kubeletplugin/state.go:174-200 | Fails with "claim not yet allocated" on an unallocated claim. Otherwise returns the prepared devices of the driver's results and the claim's edits. |
| DeviceStates.DeviceState.UnprepareDevices | cmd/example-numa-aware-cpu-kubeletplugin/state.go:212-214 | The teardown hook always succeeds. |
| DeviceStates.DeviceState.Prepare | cmd/example-numa-aware-cpu-kubeletplugin/state.go:110-141 | Keeps the checkpoint file present. Leaves exactly the stores of `PrepareStep` for the given outcomes and returns its result. Only the checkpoint file changes among the checkpoints. |
| DeviceStates.DeviceState.Unprepare | cmd/example-numa-aware-cpu-kubeletplugin/state.go:143-172 | Keeps the checkpoint file present. Leaves exactly the stores of `UnprepareStep` for the given outcomes and returns its result. |
| DeviceStates.InitCheckpoint | cmd/example-numa-aware-cpu-kubeletplugin/state.go:91-107 | Returns exactly the start-up error `InitialError` and leaves exactly the files `InitialFiles` of the files it found. Their cases are in InitialCheckpointCases. |
| DeviceStates.NewDeviceState | cmd/example-numa-aware-cpu-kubeletplugin/state.go:64-108 | On success, returns a fresh state over the 32-CPU inventory whose checkpoint exists. The common spec is written exactly when its version lookup and write succeed; if it fails, the checkpoint is not touched. After it is written, the checkpoint files become `InitialFiles` and the call fails exactly with `InitialError`: a restart keeps the checkpoint, a missing one is created empty. |
| StateProperties.FilterForDriverMembers | cmd/example-numa-aware-cpu-kubeletplugin/state.go:202-210 | A result is kept exactly when it was in the input and its driver is the given one. |
| StateProperties.FilterForDriverAppend | cmd/example-numa-aware-cpu-kubeletplugin/state.go:202-210 | Filtering distributes over concatenation, so the original order is kept. |
| StateProperties.FilterForDriverNone | cmd/example-numa-aware-cpu-kubeletplugin/state.go:202-210 | When no result belongs to the driver, the filter returns no results. |
| StateProperties.FilterForDriverSingle | cmd/example-numa-aware-cpu-kubeletplugin/state.go:205-207 | A single result is kept exactly when its driver matches. |
| StateProperties.PreparedForAt | cmd/example-numa-aware-cpu-kubeletplugin/state.go:186-199 | One prepared device per result, in order, with RequestNames [request], the result's pool and device, and `GetClaimDevices(uid, [device])` as CDI ids. |
| StateProperties.PreparedForEmpty | cmd/example-numa-aware-cpu-kubeletplugin/state.go:186-199 | The prepared devices are nil exactly when there are no results. |
| StateProperties.ThreadIdsOfInventory | cmd/example-numa-aware-cpu-kubeletplugin/state.go:223-230 | When each result names an inventory device, there is one id per result, in order: that device's "id". |
| StateProperties.ThreadIdsAreNumerals | cmd/example-numa-aware-cpu-kubeletplugin/state.go:227 | Every thread id is a numeral, possibly signed: it has no comma and reads back as the "id" of an inventory device. |
| StateProperties.ClaimEditsEnv | cmd/example-numa-aware-cpu-kubeletplugin/state.go:232-238 | There is exactly one environment entry, and it starts with `CPU_<claim name>=`. When there are thread ids, the rest splits at commas back into them; when there are none, the entry ends at `=`. |
| StateProperties.CpuInventoryThreadId | cmd/example-numa-aware-cpu-kubeletplugin/state.go:225-228 | On the enumerated inventory, device `cpu-t` contributes exactly the id t. |
| StateProperties.PreparedIdsNameSpecDevices | cmd/example-numa-aware-cpu-kubeletplugin/state.go:193 | Each prepared device's second CDI id is the qualified name of the matching device in the claim spec. |
| StateProperties.InitialCheckpointCases | cmd/example-numa-aware-cpu-kubeletplugin/state.go:91-107 | A listing failure changes nothing. An existing checkpoint is kept as it is. A missing one is created empty, or the create error is reported with nothing changed. With no error, the checkpoint exists. |
| StateProperties.RestartKeepsCheckpoint | cmd/example-numa-aware-cpu-kubeletplugin/state.go:96-99 | Start-up never alters an existing checkpoint, so the prepared claims survive a restart. |
| StateProperties.PrepareReturnsStoredEntry | cmd/example-numa-aware-cpu-kubeletplugin/state.go:122-124 | For a prepared claim, Prepare returns the stored devices and changes neither store. |
| StateProperties.PrepareUnallocatedFails | cmd/example-numa-aware-cpu-kubeletplugin/state.go:126-129 | For an unallocated, unprepared claim, Prepare fails with "claim not yet allocated" and changes neither store. |
| StateProperties.PrepareLoadFailure | cmd/example-numa-aware-cpu-kubeletplugin/state.go:116-119 | If the checkpoint cannot be read, Prepare fails with that error and changes neither store. |
| StateProperties.PrepareSpecFailureWritesNothing | cmd/example-numa-aware-cpu-kubeletplugin/state.go:131-133 | If the claim spec cannot be written, Prepare changes neither store and fails with the spec error. |
| StateProperties.PrepareSaveFailureOrphansSpec | cmd/example-numa-aware-cpu-kubeletplugin/state.go:135-138 | If the checkpoint write fails, the claim's spec remains but the claim stays unprepared. |
| StateProperties.PrepareSuccess | cmd/example-numa-aware-cpu-kubeletplugin/state.go:126-140 | On success, the checkpoint maps the claim UID to the fresh devices and every other key is unchanged. Exactly the claim's spec is written. The result is GetDevices of the stored entry. |
| StateProperties.PrepareReturnsCheckpointedDevices | cmd/example-numa-aware-cpu-kubeletplugin/state.go:122-140 | Whenever Prepare succeeds, it returns the devices of the entry the checkpoint then holds. |
| StateProperties.PrepareIsIdempotent | cmd/example-numa-aware-cpu-kubeletplugin/state.go:110-141 | A second Prepare after a successful one returns the same result and changes nothing. For a claim with no devices, this holds only when its writes succeed again. |
| StateProperties.ForeignClaimNeverPrepared | cmd/example-numa-aware-cpu-kubeletplugin/state.go:122-199 | A claim with no results for this driver is never recorded as prepared. |
| StateProperties.ForeignClaimSpecOutlivesUnprepare | cmd/example-numa-aware-cpu-kubeletplugin/state.go:131-155 | Such a claim still gets a spec written and a nil (empty) checkpoint entry. Unprepare then does nothing, so the spec stays. |
| StateProperties.UnprepareAbsentIsNoop | cmd/example-numa-aware-cpu-kubeletplugin/state.go:153-155 | Unprepare of a UID without a non-nil entry succeeds and changes nothing. |
| StateProperties.UnprepareDeleteFailureKeepsEntry | cmd/example-numa-aware-cpu-kubeletplugin/state.go:161-164 | If the spec cannot be deleted, Unprepare fails and both stores are unchanged. |
| StateProperties.UnprepareSuccess | cmd/example-numa-aware-cpu-kubeletplugin/state.go:157-171 | On success, the claim's spec is deleted and only its key is removed from the checkpoint. |
| StateProperties.UnprepareSaveFailureUnbacksEntry | cmd/example-numa-aware-cpu-kubeletplugin/state.go:161-169 | If the checkpoint write fails after the delete, the entry stays prepared but its spec is gone. |
| StateProperties.PrepareKeepsEntriesBacked | cmd/example-numa-aware-cpu-kubeletplugin/state.go:131-138 | Spec before entry: whatever fails, Prepare never leaves a prepared claim without its spec. |
| StateProperties.UnprepareKeepsEntriesBacked | cmd/example-numa-aware-cpu-kubeletplugin/state.go:161-169 | For '/'-free UIDs, Unprepare keeps every prepared claim's spec, except when it fails writing the checkpoint after the delete. |
| StateProperties.PrepareThenUnprepare | cmd/example-numa-aware-cpu-kubeletplugin/state.go:110-172 | A successful Prepare of a claim with this driver's results, then a successful Unprepare, removes exactly that claim's entry and spec. |
| StateProperties.CpuFiveDeviceIds | cmd/example-numa-aware-cpu-kubeletplugin/cdi.go:115-126 | Device `cpu-5` of claim "abc" gets the ids of the common device and of `abc-cpu-5`. |
| StateProperties.CpuFivePrepared | cmd/example-numa-aware-cpu-kubeletplugin/state.go:179-199 | A claim with one result for `cpu-5` yields one prepared device carrying those ids. |
| StateProperties.CpuFiveEnv | cmd/example-numa-aware-cpu-kubeletplugin/state.go:222-238 | On the enumerated inventory, that claim's environment entry is `CPU_my-claim=5`. |
| StateProperties.CpuFiveExample | cmd/example-numa-aware-cpu-kubeletplugin/state.go:110-172 | Prepare returns the one device and records it under "abc" with the spec's `CPU_my-claim=5` entry. Unprepare then removes both. |

## Left out

- The `sync.Mutex` is left out; each Prepare and Unprepare call is one atomic, sequential step.
- Checkpoint I/O is an in-memory map of file names to checkpoints, plus a success/failure outcome per call:
  - the JSON serialization and checksum of the checkpoint file, and `newCheckpoint`, are not part of this model;
  - a read that succeeds returns exactly what was last written.
- The driver name is `cpu.nvidia.com`, the API group name. The plugin's `DriverName` constant is defined outside the modelled files. The CDI vendor `k8s.cpu.nvidia.com` (CdiConstants) and the common spec's `DRA_RESOURCE_DRIVER_NAME` entry depend on that value.
- The checkpoint file is named "checkpoint.json". The plugin's real name for it is defined outside the modelled files. Only its being one fixed name matters.
- The CDI cache is an in-memory map of spec file names to specs, plus a success/failure outcome per write or removal. Removing an absent spec is treated as success, as the cache does.
- The CDI library's name functions are given their CDI forms:
  - `cdiparser.QualifiedName` is `vendor/class=name`;
  - `GenerateTransientSpecName` is `vendor-class_<id>` with '/' replaced by '_';
  - `GenerateNameForTransientSpec` of the common spec is the same as the transient name for "common".
  - Injectivity of spec names is proved only for UIDs without '/'.
- CreateCommonSpecFile: the error path of `GenerateNameForTransientSpec` (cdi.go:76-79) is not modelled. Its inputs are fixed constants, so no input reaches it.
- `MinimumRequiredVersion` is a `Result` parameter. The rule by which the library picks the version is not modelled.
- `NewCDIHandler` and `NewCheckpointManager` and their failures are left out. NewDeviceState receives the handler and the manager already created.
- `os.Getenv("NODE_NAME")` is the `nodeName` parameter.
- The `fmt.Printf` diagnostic in enumerateAllCPUDevices (discovery.go:46) is I/O and is left out.
- `resource.MustParse("80Gi")` is kept as the quantity's text. Quantity parsing is library code.
- The scheme registration and JSON `Decoder` set up in api.go's `init` (api.go:75-99) are serializer wiring and are left out.
- The generated deep-copy functions are left out.
- PreparedDevice's own `ContainerEdits` field is never set by the plugin, so it is not modelled. The claim's edits live in its spec.
- Integer widths: thread ids and counts are `int64` in the source and unbounded here. No value in the model comes near 64 bits.
- Deletion of orphaned specs is not modelled. The plugin has no pass that deletes specs left behind by the failures proved above (PrepareSaveFailureOrphansSpec, ForeignClaimSpecOutlivesUnprepare).
- DeviceStates.DeviceState.Unprepare: the EntriesBacked invariant (every prepared claim has its spec) is not promised when the checkpoint write after the spec delete fails. The code as written breaks it then (UnprepareSaveFailureUnbacksEntry).
