/** The static CPU inventory: 16 cores with 2 hardware threads each, split over two NUMA nodes. */
module Discovery {
  import opened Wrappers
  import opened Text

  const NumCores := 16
  const NumThreads := 2

  /** A device attribute value; exactly one of Go's optional value fields is set. */
  datatype DeviceAttribute =
    | IntValue(i: int)
    | BoolValue(b: bool)
    | StringValue(s: string)
    | VersionValue(v: string)

  /** A resource quantity, kept as the text it is parsed from. */
  datatype Quantity = Quantity(text: string)

  /** An allocatable device: its name, its attributes and its capacities. */
  datatype Device = Device(name: string, attributes: map<string, DeviceAttribute>, capacity: map<string, Quantity>)

  /** The inventory: devices by name. */
  type AllocatableDevices = map<string, Device>

  /** The device name of hardware thread `thread`. */
  function CpuName(thread: nat): string
  {
    "cpu-" + NatToDecimal(thread)
  }

  /** Distinct threads have distinct device names. */
  lemma CpuNameInjective(a: nat, b: nat)
    requires CpuName(a) == CpuName(b)
    ensures a == b
  {
    PrefixCancel("cpu-", NatToDecimal(a), NatToDecimal(b));
    NatToDecimalInjective(a, b);
  }

  function CpuAttributes(thread: int, core: int, numaNode: int): map<string, DeviceAttribute>
  {
    map[
      "architecture" := StringValue("amd64"),
      "id" := IntValue(thread),
      "parentID" := IntValue(core),
      "dra.nvidia.com/numa" := IntValue(numaNode),
      "driverVersion" := VersionValue("1.0.0")
    ]
  }

  /** The device for hardware thread `thread`: its core is the thread number modulo 16, its NUMA node 0 for cores 0-7 and 1 above. */
  function CpuDevice(thread: nat): Device
  {
    var core := thread % NumCores;
    Device(CpuName(thread), CpuAttributes(thread, core, if core < 8 then 0 else 1), map["memory" := Quantity("80Gi")])
  }

  /** `devices` holds exactly the 32 thread devices `cpu-0` ... `cpu-31`. */
  ghost predicate IsCpuInventory(devices: AllocatableDevices)
  {
    && devices.Keys == (set t | 0 <= t < NumThreads * NumCores :: CpuName(t))
    && forall t :: 0 <= t < NumThreads * NumCores ==> CpuName(t) in devices && devices[CpuName(t)] == CpuDevice(t)
  }

  /** What the claim code needs of an inventory: each device is filed under its own name and has an integer "id". */
  predicate InventoryWellFormed(devices: AllocatableDevices)
  {
    forall k :: k in devices ==>
      devices[k].name == k && "id" in devices[k].attributes && devices[k].attributes["id"].IntValue?
  }

  /** The integer "id" attribute of a device. */
  function ThreadId(d: Device): int
    requires "id" in d.attributes && d.attributes["id"].IntValue?
  {
    d.attributes["id"].i
  }

  /** Builds the inventory thread by thread; it never fails. */
  method EnumerateAllCpuDevices() returns (allDevices: AllocatableDevices, err: Option<string>)
    ensures err == None
    ensures IsCpuInventory(allDevices)
    ensures InventoryWellFormed(allDevices)
  {
    allDevices := map[];
    var thread := 0;
    while thread < NumThreads * NumCores
      invariant 0 <= thread <= NumThreads * NumCores
      invariant allDevices.Keys == (set t | 0 <= t < thread :: CpuName(t))
      invariant forall t :: 0 <= t < thread ==> allDevices[CpuName(t)] == CpuDevice(t)
    {
      var core, numaNode;
      if thread < 16 {
        core := thread % 16;
      } else {
        core := thread - 16;
      }
      if core < 8 {
        numaNode := 0;
      } else {
        numaNode := 1;
      }
      assert core == thread % NumCores;
      var device := Device(CpuName(thread), CpuAttributes(thread, core, numaNode), map["memory" := Quantity("80Gi")]);
      CpuNamesExtend(thread);
      allDevices := allDevices[device.name := device];
      thread := thread + 1;
    }
    forall k | k in allDevices
      ensures allDevices[k].name == k && "id" in allDevices[k].attributes && allDevices[k].attributes["id"].IntValue?
    {
      var t :| 0 <= t < NumThreads * NumCores && CpuName(t) == k;
    }
    err := None;
  }

  /** The CPU inventory has exactly 32 devices. */
  lemma CpuInventorySize(devices: AllocatableDevices)
    requires IsCpuInventory(devices)
    ensures |devices| == NumThreads * NumCores
  {
    CpuNamesCount(NumThreads * NumCores);
    assert |devices| == |devices.Keys|;
  }

  /** Extending the thread range by one adds one fresh name. */
  lemma CpuNamesExtend(n: nat)
    ensures (set t | 0 <= t < n + 1 :: CpuName(t)) == (set t | 0 <= t < n :: CpuName(t)) + {CpuName(n)}
    ensures CpuName(n) !in (set t | 0 <= t < n :: CpuName(t))
  {
    if CpuName(n) in (set t | 0 <= t < n :: CpuName(t)) {
      var t :| 0 <= t < n && CpuName(t) == CpuName(n);
      CpuNameInjective(t, n);
    }
  }

  /** There are exactly `n` names for the threads below `n`. */
  lemma {:induction false} CpuNamesCount(n: nat)
    ensures |set t | 0 <= t < n :: CpuName(t)| == n
  {
    if n > 0 {
      CpuNamesCount(n - 1);
      CpuNamesExtend(n - 1);
    }
  }

  /** The attributes every thread device carries, and how its id, core and NUMA node follow from the thread number. */
  lemma CpuDeviceAttributes(thread: nat)
    requires thread < NumThreads * NumCores
    ensures CpuDevice(thread).name == CpuName(thread)
    ensures CpuDevice(thread).attributes["id"] == IntValue(thread)
    ensures CpuDevice(thread).attributes["parentID"] == IntValue(thread % 16)
    ensures 0 <= thread % 16 < 16
    ensures CpuDevice(thread).attributes["dra.nvidia.com/numa"] == IntValue(if thread % 16 < 8 then 0 else 1)
    ensures CpuDevice(thread).attributes["architecture"] == StringValue("amd64")
    ensures CpuDevice(thread).attributes["driverVersion"] == VersionValue("1.0.0")
    ensures CpuDevice(thread).capacity == map["memory" := Quantity("80Gi")]
  {
  }

  /** Threads t and t+16 are the two hardware threads of one core, on one NUMA node. */
  lemma SiblingThreadsShareCore(thread: nat)
    requires thread < NumCores
    ensures CpuDevice(thread).attributes["parentID"] == CpuDevice(thread + NumCores).attributes["parentID"] == IntValue(thread)
    ensures CpuDevice(thread).attributes["dra.nvidia.com/numa"] == CpuDevice(thread + NumCores).attributes["dra.nvidia.com/numa"]
  {
  }
}
