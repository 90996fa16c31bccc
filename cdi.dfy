/**
 * Container Device Interface (CDI) descriptors: the common spec applied to every
 * container of this driver, one spec per claim, and the fully-qualified device names
 * (`vendor/class=name`) the kubelet hands to the runtime.
 */
module Cdi {
  import opened Wrappers
  import opened Text
  import CpuApi
  import opened ClaimTypes

  /** The driver's name is the API group name (its definition is not part of this model). */
  const DriverName := CpuApi.GroupName

  const CdiVendor := "k8s." + DriverName
  const CdiClass := "cpu"
  const CdiKind := CdiVendor + "/" + CdiClass
  const CdiCommonDeviceName := "common"

  /** The container edits a spec or device carries; this driver only ever sets environment variables. */
  datatype ContainerEdits = ContainerEdits(env: seq<string>)

  const NoEdits := ContainerEdits([])

  /** One device of a CDI spec. */
  datatype CdiDevice = CdiDevice(name: string, containerEdits: ContainerEdits)

  /** A CDI spec file. */
  datatype Spec = Spec(version: string, kind: string, devices: seq<CdiDevice>, containerEdits: ContainerEdits)

  lemma CdiConstants()
    ensures DriverName == "cpu.nvidia.com"
    ensures CdiVendor == "k8s.cpu.nvidia.com"
    ensures CdiClass == "cpu"
    ensures CdiKind == CdiVendor + "/" + CdiClass
    ensures CdiKind == "k8s.cpu.nvidia.com/cpu"
  {
  }

  /** The CDI fully-qualified device name `vendor/class=name`. */
  function QualifiedName(vendor: string, cls: string, name: string): string
  {
    vendor + "/" + cls + "=" + name
  }

  /** For a fixed vendor and class, distinct device names qualify to distinct names. */
  lemma QualifiedNameInjective(vendor: string, cls: string, a: string, b: string)
    requires QualifiedName(vendor, cls, a) == QualifiedName(vendor, cls, b)
    ensures a == b
  {
    PrefixCancel(vendor + "/" + cls + "=", a, b);
  }

  /** The CDI library's name for a transient spec file: `<vendor>-<class>_<id>`, with '/' in the id replaced by '_'. */
  function TransientSpecName(vendor: string, cls: string, transientId: string): string
  {
    vendor + "-" + cls + "_" + ReplaceChar(transientId, '/', '_')
  }

  /** The spec file name of a claim; create and delete both use it. */
  function ClaimSpecName(claimUID: string): string
  {
    TransientSpecName(CdiVendor, CdiClass, claimUID)
  }

  /** The spec file name of the common spec. */
  function CommonSpecName(): string
  {
    TransientSpecName(CdiVendor, CdiClass, CdiCommonDeviceName)
  }

  /** Claim UIDs without '/' (Kubernetes UIDs are UUIDs) get distinct spec files, none of them the common one unless the UID is "common". */
  lemma ClaimSpecNameInjective(a: string, b: string)
    requires '/' !in a && '/' !in b
    ensures ClaimSpecName(a) == ClaimSpecName(b) <==> a == b
    ensures ClaimSpecName(a) == CommonSpecName() <==> a == CdiCommonDeviceName
  {
    ReplaceAbsentChar(a, '/', '_');
    ReplaceAbsentChar(b, '/', '_');
    ReplaceAbsentChar(CdiCommonDeviceName, '/', '_');
    if ClaimSpecName(a) == ClaimSpecName(b) {
      PrefixCancel(CdiVendor + "-" + CdiClass + "_", a, b);
    }
    if ClaimSpecName(a) == CommonSpecName() {
      PrefixCancel(CdiVendor + "-" + CdiClass + "_", a, CdiCommonDeviceName);
    }
  }

  /** The name of the spec device that stands for `device` of claim `claimUID`. */
  function ClaimDeviceName(claimUID: string, device: string): string
  {
    claimUID + "-" + device
  }

  /** The qualified CDI device names of a claim's devices, the common device first. */
  function ClaimDeviceIds(claimUID: string, devices: seq<string>): seq<string>
  {
    if devices == [] then [QualifiedName(CdiVendor, CdiClass, CdiCommonDeviceName)]
    else ClaimDeviceIds(claimUID, devices[..|devices| - 1])
         + [QualifiedName(CdiVendor, CdiClass, ClaimDeviceName(claimUID, devices[|devices| - 1]))]
  }

  /** One name more than devices: the common device, then each device of the claim in order. */
  lemma {:induction false} ClaimDeviceIdsShape(claimUID: string, devices: seq<string>)
    ensures |ClaimDeviceIds(claimUID, devices)| == 1 + |devices|
    ensures ClaimDeviceIds(claimUID, devices)[0] == QualifiedName(CdiVendor, CdiClass, CdiCommonDeviceName)
    ensures forall i :: 0 <= i < |devices| ==>
      ClaimDeviceIds(claimUID, devices)[i + 1] == QualifiedName(CdiVendor, CdiClass, ClaimDeviceName(claimUID, devices[i]))
    decreases |devices|
  {
    if devices != [] {
      ClaimDeviceIdsShape(claimUID, devices[..|devices| - 1]);
    }
  }

  /** The spec devices of a claim, one per prepared device, in order. */
  function ClaimSpecDevices(claimUID: string, devices: PreparedDevices): seq<CdiDevice>
  {
    if devices == [] then []
    else ClaimSpecDevices(claimUID, devices[..|devices| - 1])
         + [CdiDevice(ClaimDeviceName(claimUID, devices[|devices| - 1].device.deviceName), NoEdits)]
  }

  /** The spec written for a claim. */
  function ClaimSpec(claimUID: string, devices: PreparedDevices, containerEdits: ContainerEdits, version: string): Spec
  {
    Spec(version, CdiKind, ClaimSpecDevices(claimUID, devices), containerEdits)
  }

  /** A claim spec has the driver's kind, one device `<claimUID>-<device>` per prepared device in order, and the claim's edits at spec level. */
  lemma {:induction false} ClaimSpecShape(claimUID: string, devices: PreparedDevices, containerEdits: ContainerEdits, version: string)
    ensures ClaimSpec(claimUID, devices, containerEdits, version).kind == CdiKind
    ensures ClaimSpec(claimUID, devices, containerEdits, version).version == version
    ensures ClaimSpec(claimUID, devices, containerEdits, version).containerEdits == containerEdits
    ensures |ClaimSpec(claimUID, devices, containerEdits, version).devices| == |devices|
    ensures forall i :: 0 <= i < |devices| ==>
      ClaimSpec(claimUID, devices, containerEdits, version).devices[i]
        == CdiDevice(ClaimDeviceName(claimUID, devices[i].device.deviceName), NoEdits)
    decreases |devices|
  {
    if devices != [] {
      ClaimSpecShape(claimUID, devices[..|devices| - 1], containerEdits, version);
    }
  }

  /** The common spec: one device "common" with the node name and the driver name in its environment. */
  function CommonSpec(nodeName: string, version: string): Spec
  {
    Spec(version, CdiKind, [CdiDevice(CdiCommonDeviceName, ContainerEdits([
      "KUBERNETES_NODE_NAME=" + nodeName,
      "DRA_RESOURCE_DRIVER_NAME=" + DriverName
    ]))], NoEdits)
  }

  lemma CommonSpecShape(nodeName: string, version: string)
    ensures CommonSpec(nodeName, version).kind == CdiKind
    ensures |CommonSpec(nodeName, version).devices| == 1
    ensures CommonSpec(nodeName, version).devices[0].name == "common"
    ensures CommonSpec(nodeName, version).devices[0].containerEdits.env
      == ["KUBERNETES_NODE_NAME=" + nodeName, "DRA_RESOURCE_DRIVER_NAME=" + DriverName]
  {
  }

  /** The error a claim spec write reports, if any: the version lookup first, then the write itself. */
  function ClaimSpecWriteError(minVersion: Result<string, string>, write: Outcome): Option<string>
  {
    if minVersion.Failure? then Some("failed to get minimum required CDI spec version: " + minVersion.error)
    else if write.Fail? then Some(write.error)
    else None
  }

  /**
   * The CDI handler; `specs` is the spec directory its cache writes to, by spec file name.
   * Each library call that can fail takes its outcome as a parameter.
   */
  class CdiHandler {
    var specs: map<string, Spec>

    constructor(specs: map<string, Spec>)
      ensures this.specs == specs
    {
      this.specs := specs;
    }

    /** The cache's WriteSpec: writes or overwrites one spec file. */
    method WriteSpec(spec: Spec, specName: string, write: Outcome) returns (err: Option<string>)
      modifies this
      ensures write.Fail? ==> err == Some(write.error) && specs == old(specs)
      ensures write.Pass? ==> err == None && specs == old(specs)[specName := spec]
    {
      if write.Fail? {
        return Some(write.error);
      }
      specs := specs[specName := spec];
      err := None;
    }

    /** Writes the common spec; `nodeName` is the NODE_NAME environment variable. */
    method CreateCommonSpecFile(nodeName: string, minVersion: Result<string, string>, write: Outcome) returns (err: Option<string>)
      modifies this
      ensures minVersion.Failure? ==> err == Some("failed to get minimum required CDI spec version: " + minVersion.error)
      ensures minVersion.Success? && write.Fail? ==> err == Some(write.error)
      ensures err.None? <==> minVersion.Success? && write.Pass?
      ensures specs == if err.None? then old(specs)[CommonSpecName() := CommonSpec(nodeName, minVersion.value)] else old(specs)
    {
      var spec := Spec("", CdiKind, [CdiDevice(CdiCommonDeviceName, ContainerEdits([
        "KUBERNETES_NODE_NAME=" + nodeName,
        "DRA_RESOURCE_DRIVER_NAME=" + DriverName
      ]))], NoEdits);
      if minVersion.Failure? {
        return Some("failed to get minimum required CDI spec version: " + minVersion.error);
      }
      spec := spec.(version := minVersion.value);
      var specName := TransientSpecName(CdiVendor, CdiClass, CdiCommonDeviceName);
      err := WriteSpec(spec, specName, write);
    }

    /** Writes the spec of a claim: one device per prepared device, the claim's edits at spec level. */
    method CreateClaimSpecFile(claimUID: string, devices: PreparedDevices, containerEdits: ContainerEdits,
                               minVersion: Result<string, string>, write: Outcome) returns (err: Option<string>)
      modifies this
      ensures err == ClaimSpecWriteError(minVersion, write)
      ensures specs == if err.None? then old(specs)[ClaimSpecName(claimUID) := ClaimSpec(claimUID, devices, containerEdits, minVersion.value)]
                       else old(specs)
    {
      var specName := TransientSpecName(CdiVendor, CdiClass, claimUID);
      var spec := Spec("", CdiKind, [], NoEdits);
      for i := 0 to |devices|
        invariant spec == Spec("", CdiKind, ClaimSpecDevices(claimUID, devices[..i]), NoEdits)
      {
        var cdiDevice := CdiDevice(claimUID + "-" + devices[i].device.deviceName, NoEdits);
        assert devices[..i + 1][..i] == devices[..i];
        spec := spec.(devices := spec.devices + [cdiDevice]);
      }
      assert devices[..|devices|] == devices;
      if minVersion.Failure? {
        return Some("failed to get minimum required CDI spec version: " + minVersion.error);
      }
      spec := spec.(version := minVersion.value, containerEdits := containerEdits);
      err := WriteSpec(spec, specName, write);
    }

    /** Removes the spec of a claim; removing a spec that is not there is not an error. */
    method DeleteClaimSpecFile(claimUID: string, remove: Outcome) returns (err: Option<string>)
      modifies this
      ensures remove.Fail? ==> err == Some(remove.error) && specs == old(specs)
      ensures remove.Pass? ==> err == None && specs == old(specs) - {ClaimSpecName(claimUID)}
    {
      var specName := TransientSpecName(CdiVendor, CdiClass, claimUID);
      if remove.Fail? {
        return Some(remove.error);
      }
      specs := specs - {specName};
      err := None;
    }

    /** The qualified CDI device names of a claim's devices, the common device first. */
    method GetClaimDevices(claimUID: string, devices: seq<string>) returns (cdiDevices: seq<string>)
      ensures cdiDevices == ClaimDeviceIds(claimUID, devices)
      ensures |cdiDevices| == 1 + |devices|
      ensures cdiDevices[0] == QualifiedName(CdiVendor, CdiClass, CdiCommonDeviceName)
      ensures forall i :: 0 <= i < |devices| ==>
        cdiDevices[i + 1] == QualifiedName(CdiVendor, CdiClass, ClaimDeviceName(claimUID, devices[i]))
    {
      cdiDevices := [QualifiedName(CdiVendor, CdiClass, CdiCommonDeviceName)];
      for i := 0 to |devices|
        invariant cdiDevices == ClaimDeviceIds(claimUID, devices[..i])
      {
        var cdiDevice := QualifiedName(CdiVendor, CdiClass, claimUID + "-" + devices[i]);
        assert devices[..i + 1][..i] == devices[..i];
        cdiDevices := cdiDevices + [cdiDevice];
      }
      assert devices[..|devices|] == devices;
      ClaimDeviceIdsShape(claimUID, devices);
    }
  }

  /** The name each spec device of a claim qualifies to is the per-device name GetClaimDevices lists for it. */
  lemma SpecDeviceNamesMatchClaimDeviceIds(claimUID: string, devices: PreparedDevices, containerEdits: ContainerEdits, version: string, i: nat)
    requires i < |devices|
    ensures |ClaimSpec(claimUID, devices, containerEdits, version).devices| == |devices|
    ensures |ClaimDeviceIds(claimUID, [devices[i].device.deviceName])| == 2
    ensures QualifiedName(CdiVendor, CdiClass, ClaimSpec(claimUID, devices, containerEdits, version).devices[i].name)
      == ClaimDeviceIds(claimUID, [devices[i].device.deviceName])[1]
  {
    ClaimSpecShape(claimUID, devices, containerEdits, version);
    ClaimDeviceIdsShape(claimUID, [devices[i].device.deviceName]);
  }
}
