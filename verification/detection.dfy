/** Services/SpoofingService.cs, DetectVirtualization: the passive
    virtualization detector as fifteen rules over what the operating system
    reports (management queries, registry keys, files), each a scan of the
    records delivered, and the report built from them. */
module SpoofingChecks {
  import opened Wrappers
  import opened Text

  /** The records one management query delivered before its enumeration
      ended, normally or by throwing. Every rule answers from these records
      alone: a match returns before a later throw, and a throw without a
      match ends in the rule's catch with the answer an empty scan gives. */
  datatype Query<T> = Query(rows: seq<T>)

  /** Win32_BIOS: Manufacturer, Version. */
  datatype BiosRow = BiosRow(manufacturer: Option<string>, version: Option<string>)

  /** Win32_ComputerSystem: Manufacturer, Model. */
  datatype SystemRow = SystemRow(manufacturer: Option<string>, model: Option<string>)

  /** Win32_DiskDrive: Model, Manufacturer. */
  datatype DiskRow = DiskRow(model: Option<string>, manufacturer: Option<string>)

  /** Win32_TemperatureProbe: only the presence of a record matters. */
  datatype TemperatureProbe = TemperatureProbe

  /** Everything the fifteen checks read from the machine. A field of a record
      is `None` when the query reports null. */
  datatype HostSnapshot = HostSnapshot(
    bios: Query<BiosRow>,
    computerSystem: Query<SystemRow>,
    videoControllerNames: Query<Option<string>>,
    processorNames: Query<Option<string>>,
    adapterMacs: Query<Option<string>>,
    totalPhysicalMemory: Query<Option<nat>>,
    processorDescriptions: Query<Option<string>>,
    registryArtifacts: map<string, seq<Option<string>>>,  // existing HKLM subkey -> data of its values
    processNames: Query<string>,
    serviceNames: Query<Option<string>>,
    driverNames: Query<Option<string>>,
    hardwareIds: Query<Option<string>>,
    temperatureProbes: Query<TemperatureProbe>,
    disks: Query<DiskRow>,
    existingPaths: set<string>)                            // File.Exists || Directory.Exists

  /** `obj[field]?.ToString().ToLower() ?? ""`. */
  function Field(v: Option<string>): string {
    ToLower(v.GetOr(""))
  }

  predicate BiosRowIsVirtual(row: BiosRow) {
    ContainsAny(Field(row.manufacturer), ["vmware", "virtualbox", "qemu"]) || Contains(Field(row.version), "virtual")
  }

  predicate SystemRowIsVirtual(row: SystemRow) {
    ContainsAny(Field(row.manufacturer), ["vmware", "virtualbox", "qemu"]) || Contains(Field(row.model), "virtual")
  }

  predicate VideoControllerIsVirtual(name: Option<string>) {
    ContainsAny(Field(name), ["vmware", "virtualbox", "qemu", "virtual"])
  }

  predicate ProcessorNameIsVirtual(name: Option<string>) {
    ContainsAny(Field(name), ["virtual", "qemu"])
  }

  /** Hypervisor vendor MAC prefixes: VMware (four), VirtualBox, QEMU/KVM. */
  const VM_MAC_PREFIXES := ["00:05:69", "00:0C:29", "00:1C:14", "00:50:56", "08:00:27", "52:54:00"]

  /** The MAC rule upper-cases and tests prefixes; a null MAC is "". */
  predicate MacIsVirtual(mac: Option<string>) {
    var address := ToUpper(mac.GetOr(""));
    exists i | 0 <= i < |VM_MAC_PREFIXES| :: StartsWith(address, VM_MAC_PREFIXES[i])
  }

  const TWO_GIB := 2147483648

  /** Integer stand-in for the source's floating-point `log2(n)` integrality test. */
  predicate IsPowerOfTwo(n: nat)
    decreases n
  {
    n == 1 || (n > 1 && n % 2 == 0 && IsPowerOfTwo(n / 2))
  }

  /** `Convert.ToUInt64(null)` is 0, so a null total counts as below 2 GiB. */
  predicate MemoryIsSuspicious(total: Option<nat>) {
    var bytes := total.GetOr(0);
    bytes < TWO_GIB || IsPowerOfTwo(bytes)
  }

  predicate CpuDescriptionIsVirtual(description: Option<string>) {
    ContainsAny(Field(description), ["hypervisor", "vmx", "svm"])
  }

  /** The HKLM subkeys the registry rule inspects (one appears twice). */
  const VM_REGISTRY_PATHS := [
    "SYSTEM\\CurrentControlSet\\Control\\VirtualDeviceDrivers",
    "SYSTEM\\CurrentControlSet\\Services\\Disk\\Enum",
    "HARDWARE\\DEVICEMAP\\Scsi\\Scsi Port 2",
    "SYSTEM\\CurrentControlSet\\Control\\SystemInformation",
    "SYSTEM\\CurrentControlSet\\Control\\VirtualDeviceDrivers"
  ]

  predicate RegistryDataIsVirtual(data: Option<string>) {
    ContainsAny(Field(data), ["vmware", "virtual", "vbox", "qemu"])
  }

  const VM_PROCESSES := [
    "vmtoolsd", "vmwaretray", "vmwareuser", "VGAuthService", "vmacthlp",
    "vboxservice", "vboxtray", "vmusrvc", "prl_tools", "prl_cc"
  ]

  /** Exact membership of the lower-cased process name in the list. */
  predicate ProcessIsVmTool(name: string) {
    ToLower(name) in VM_PROCESSES
  }

  const VM_SERVICES := ["vmtools", "vmware", "vboxservice", "parallels"]

  predicate ServiceIsVmTool(name: Option<string>) {
    ContainsAny(Field(name), VM_SERVICES)
  }

  predicate DriverIsVmTool(name: Option<string>) {
    ContainsAny(Field(name), ["vmmouse", "vmscsi", "vboxguest", "vmxnet"])
  }

  /** PCI vendor 15AD (VMware), 80EE (VirtualBox), or QEMU. */
  predicate HardwareIdIsVirtual(id: Option<string>) {
    ContainsAny(Field(id), ["ven_15ad", "ven_80ee", "qemu"])
  }

  predicate DiskIsVirtual(row: DiskRow) {
    || ContainsAny(Field(row.model), ["virtual", "vmware", "vbox"])
    || ContainsAny(Field(row.manufacturer), ["vmware", "virtualbox", "qemu"])
  }

  const VM_PATHS := [
    "C:\\Windows\\System32\\drivers\\vmmouse.sys",
    "C:\\Windows\\System32\\drivers\\vmhgfs.sys",
    "C:\\Windows\\System32\\drivers\\VBoxMouse.sys",
    "C:\\Windows\\System32\\drivers\\VBoxGuest.sys",
    "C:\\Windows\\System32\\drivers\\VBoxSF.sys",
    "C:\\Windows\\System32\\drivers\\VBoxVideo.sys",
    "C:\\Program Files\\VMware",
    "C:\\Program Files\\Oracle\\VirtualBox Guest Additions"
  ]

  /** Some record satisfies the rule. */
  ghost predicate AnyRow<T>(rows: seq<T>, matches: T -> bool) {
    exists i :: 0 <= i < |rows| && matches(rows[i])
  }

  /** The `foreach ... if (...) return true;` loop shared by the checks. */
  method ScanRows<T>(rows: seq<T>, matches: T -> bool) returns (found: bool)
    ensures found <==> AnyRow(rows, matches)
  {
    var i := 0;
    while i < |rows|
      invariant 0 <= i <= |rows|
      invariant forall k :: 0 <= k < i ==> !matches(rows[k])
    {
      if matches(rows[i]) {
        return true;
      }
      i := i + 1;
    }
    return false;
  }

  method CheckSystemBiosName(bios: Query<BiosRow>) returns (found: bool)
    ensures found <==> AnyRow(bios.rows, BiosRowIsVirtual)
  {
    found := ScanRows(bios.rows, BiosRowIsVirtual);
  }

  method CheckSystemManufacturer(systems: Query<SystemRow>) returns (found: bool)
    ensures found <==> AnyRow(systems.rows, SystemRowIsVirtual)
  {
    found := ScanRows(systems.rows, SystemRowIsVirtual);
  }

  method CheckVideoController(names: Query<Option<string>>) returns (found: bool)
    ensures found <==> AnyRow(names.rows, VideoControllerIsVirtual)
  {
    found := ScanRows(names.rows, VideoControllerIsVirtual);
  }

  method CheckProcessorName(names: Query<Option<string>>) returns (found: bool)
    ensures found <==> AnyRow(names.rows, ProcessorNameIsVirtual)
  {
    found := ScanRows(names.rows, ProcessorNameIsVirtual);
  }

  method CheckMACAddress(macs: Query<Option<string>>) returns (found: bool)
    ensures found <==> AnyRow(macs.rows, MacIsVirtual)
  {
    found := ScanRows(macs.rows, MacIsVirtual);
  }

  method CheckMemoryConfiguration(totals: Query<Option<nat>>) returns (found: bool)
    ensures found <==> AnyRow(totals.rows, MemoryIsSuspicious)
  {
    found := ScanRows(totals.rows, MemoryIsSuspicious);
  }

  method CheckCPUInstructions(descriptions: Query<Option<string>>) returns (found: bool)
    ensures found <==> AnyRow(descriptions.rows, CpuDescriptionIsVirtual)
  {
    found := ScanRows(descriptions.rows, CpuDescriptionIsVirtual);
  }

  /** The subkey exists and one of its values carries virtualization data. */
  ghost predicate KeyHasVmData(view: map<string, seq<Option<string>>>, path: string) {
    path in view && AnyRow(view[path], RegistryDataIsVirtual)
  }

  /** One of the inspected subkeys exists and carries virtualization data. */
  ghost predicate AnyKeyHasVmData(view: map<string, seq<Option<string>>>) {
    exists i :: 0 <= i < |VM_REGISTRY_PATHS| && KeyHasVmData(view, VM_REGISTRY_PATHS[i])
  }

  method CheckRegistryArtifacts(view: map<string, seq<Option<string>>>) returns (found: bool)
    ensures found <==> AnyKeyHasVmData(view)
  {
    var i := 0;
    while i < |VM_REGISTRY_PATHS|
      invariant 0 <= i <= |VM_REGISTRY_PATHS|
      invariant forall k :: 0 <= k < i ==> !KeyHasVmData(view, VM_REGISTRY_PATHS[k])
    {
      var path := VM_REGISTRY_PATHS[i];
      if path in view {
        var hit := ScanRows(view[path], RegistryDataIsVirtual);
        if hit {
          return true;
        }
      }
      i := i + 1;
    }
    return false;
  }

  method CheckVMProcesses(processes: Query<string>) returns (found: bool)
    ensures found <==> AnyRow(processes.rows, ProcessIsVmTool)
  {
    found := ScanRows(processes.rows, ProcessIsVmTool);
  }

  method CheckVMServices(services: Query<Option<string>>) returns (found: bool)
    ensures found <==> AnyRow(services.rows, ServiceIsVmTool)
  {
    found := ScanRows(services.rows, ServiceIsVmTool);
  }

  method CheckDriverSignatures(drivers: Query<Option<string>>) returns (found: bool)
    ensures found <==> AnyRow(drivers.rows, DriverIsVmTool)
  {
    found := ScanRows(drivers.rows, DriverIsVmTool);
  }

  method CheckHardwareIDs(devices: Query<Option<string>>) returns (found: bool)
    ensures found <==> AnyRow(devices.rows, HardwareIdIsVirtual)
  {
    found := ScanRows(devices.rows, HardwareIdIsVirtual);
  }

  /** No temperature probe at all (including a query that throws before its
      first record) is the positive signal. */
  method CheckThermalInformation(probes: Query<TemperatureProbe>) returns (found: bool)
    ensures found <==> |probes.rows| == 0
  {
    if |probes.rows| == 0 {
      // MoveNext returned false, or threw: both report a virtual machine
      return true;
    }
    return false;
  }

  method CheckStorageCharacteristics(disks: Query<DiskRow>) returns (found: bool)
    ensures found <==> AnyRow(disks.rows, DiskIsVirtual)
  {
    found := ScanRows(disks.rows, DiskIsVirtual);
  }

  /** One of the known guest-tool files or directories exists. */
  ghost predicate AnyVmPath(existing: set<string>) {
    exists i :: 0 <= i < |VM_PATHS| && VM_PATHS[i] in existing
  }

  method CheckVMFiles(existing: set<string>) returns (found: bool)
    ensures found <==> AnyVmPath(existing)
  {
    var i := 0;
    while i < |VM_PATHS|
      invariant 0 <= i <= |VM_PATHS|
      invariant forall k :: 0 <= k < i ==> VM_PATHS[k] !in existing
    {
      if VM_PATHS[i] in existing {
        return true;
      }
      i := i + 1;
    }
    return false;
  }

  /** The report's keys, in the order DetectVirtualization assigns them. */
  const REPORT_NAMES := [
    "BIOS Signature", "System Manufacturer", "Video Controller", "Processor Features",
    "MAC Address", "Memory Configuration", "CPU Instructions", "Registry Artifacts",
    "Process List", "Services", "Driver Signatures", "Hardware IDs",
    "Thermal Information", "Storage Characteristics", "VM Files"
  ]

  /** The passive detector's report as a function of the machine: each key
      with the verdict of its rule. */
  ghost function Indicators(host: HostSnapshot): seq<(string, bool)> {
    MachineIndicators(host) + ArtifactIndicators(host)
  }

  /** The first seven entries: what the management queries say about the
      firmware, the hardware and the processor. */
  ghost function MachineIndicators(host: HostSnapshot): seq<(string, bool)> {
    [ ("BIOS Signature", AnyRow(host.bios.rows, BiosRowIsVirtual)),
      ("System Manufacturer", AnyRow(host.computerSystem.rows, SystemRowIsVirtual)),
      ("Video Controller", AnyRow(host.videoControllerNames.rows, VideoControllerIsVirtual)),
      ("Processor Features", AnyRow(host.processorNames.rows, ProcessorNameIsVirtual)),
      ("MAC Address", AnyRow(host.adapterMacs.rows, MacIsVirtual)),
      ("Memory Configuration", AnyRow(host.totalPhysicalMemory.rows, MemoryIsSuspicious)),
      ("CPU Instructions", AnyRow(host.processorDescriptions.rows, CpuDescriptionIsVirtual)) ]
  }

  /** The last eight entries: traces of guest tools and of emulated devices. */
  ghost function ArtifactIndicators(host: HostSnapshot): seq<(string, bool)> {
    [ ("Registry Artifacts", AnyKeyHasVmData(host.registryArtifacts)),
      ("Process List", AnyRow(host.processNames.rows, ProcessIsVmTool)),
      ("Services", AnyRow(host.serviceNames.rows, ServiceIsVmTool)),
      ("Driver Signatures", AnyRow(host.driverNames.rows, DriverIsVmTool)),
      ("Hardware IDs", AnyRow(host.hardwareIds.rows, HardwareIdIsVirtual)),
      ("Thermal Information", |host.temperatureProbes.rows| == 0),
      ("Storage Characteristics", AnyRow(host.disks.rows, DiskIsVirtual)),
      ("VM Files", AnyVmPath(host.existingPaths)) ]
  }

  /** The number of positive entries of a report. */
  function PositiveCount(report: seq<(string, bool)>): nat
    decreases |report|
  {
    if report == [] then 0
    else PositiveCount(report[..|report| - 1]) + (if report[|report| - 1].1 then 1 else 0)
  }

  /** The count is positive exactly when some entry is positive. */
  lemma {:induction false} PositiveCountPositive(report: seq<(string, bool)>)
    ensures PositiveCount(report) > 0 <==> exists i :: 0 <= i < |report| && report[i].1
    decreases |report|
  {
    if report != [] {
      var front := report[..|report| - 1];
      PositiveCountPositive(front);
      if exists i :: 0 <= i < |front| && front[i].1 {
        var i :| 0 <= i < |front| && front[i].1;
        assert report[i].1;
      }
      if exists i :: 0 <= i < |report| && report[i].1 {
        var i :| 0 <= i < |report| && report[i].1;
        if i < |front| {
          assert front[i].1;
        }
      }
    }
  }

  /** The first seven checks of DetectVirtualization, in source order. */
  method RunMachineChecks(host: HostSnapshot) returns (entries: seq<(string, bool)>)
    ensures entries == MachineIndicators(host)
  {
    var bios := CheckSystemBiosName(host.bios);
    var manufacturer := CheckSystemManufacturer(host.computerSystem);
    var video := CheckVideoController(host.videoControllerNames);
    var processor := CheckProcessorName(host.processorNames);
    var mac := CheckMACAddress(host.adapterMacs);
    var memory := CheckMemoryConfiguration(host.totalPhysicalMemory);
    var cpu := CheckCPUInstructions(host.processorDescriptions);
    entries := [
      ("BIOS Signature", bios),
      ("System Manufacturer", manufacturer),
      ("Video Controller", video),
      ("Processor Features", processor),
      ("MAC Address", mac),
      ("Memory Configuration", memory),
      ("CPU Instructions", cpu) ];
  }

  /** The last eight checks of DetectVirtualization, in source order. */
  method RunArtifactChecks(host: HostSnapshot) returns (entries: seq<(string, bool)>)
    ensures entries == ArtifactIndicators(host)
  {
    var registry := CheckRegistryArtifacts(host.registryArtifacts);
    var processes := CheckVMProcesses(host.processNames);
    var services := CheckVMServices(host.serviceNames);
    var drivers := CheckDriverSignatures(host.driverNames);
    var hardware := CheckHardwareIDs(host.hardwareIds);
    var thermal := CheckThermalInformation(host.temperatureProbes);
    var storage := CheckStorageCharacteristics(host.disks);
    var files := CheckVMFiles(host.existingPaths);
    entries := [
      ("Registry Artifacts", registry),
      ("Process List", processes),
      ("Services", services),
      ("Driver Signatures", drivers),
      ("Hardware IDs", hardware),
      ("Thermal Information", thermal),
      ("Storage Characteristics", storage),
      ("VM Files", files) ];
  }

  /** The dictionary DetectVirtualization fills: the fifteen checks run in
      source order, each entry holding its rule's verdict. */
  method RunChecks(host: HostSnapshot) returns (details: seq<(string, bool)>)
    ensures details == Indicators(host)
  {
    var first := RunMachineChecks(host);
    var second := RunArtifactChecks(host);
    details := first + second;
  }

  /** `details.Values.Any(x => x)`. */
  method AnyPositive(details: seq<(string, bool)>) returns (isVM: bool)
    ensures isVM <==> exists i :: 0 <= i < |details| && details[i].1
  {
    var i := 0;
    while i < |details|
      invariant 0 <= i <= |details|
      invariant forall k :: 0 <= k < i ==> !details[k].1
    {
      if details[i].1 {
        return true;
      }
      i := i + 1;
    }
    return false;
  }

  /** `details.Count(x => x.Value)`, the number the completion message logs. */
  method CountPositive(details: seq<(string, bool)>) returns (count: nat)
    ensures count == PositiveCount(details)
  {
    count := 0;
    var i := 0;
    while i < |details|
      invariant 0 <= i <= |details|
      invariant count == PositiveCount(details[..i])
    {
      assert details[..i + 1][..i] == details[..i];
      if details[i].1 {
        count := count + 1;
      }
      i := i + 1;
    }
    assert details[..|details|] == details;
  }

  /** DetectVirtualization: the fifteen checks in source order, the verdict
      (any positive entry) and the number of positive entries it logs. */
  method DetectVirtualization(host: HostSnapshot) returns (isVM: bool, details: seq<(string, bool)>, indicatorCount: nat)
    ensures details == Indicators(host)
    ensures isVM <==> exists i :: 0 <= i < |details| && details[i].1
    ensures isVM <==> indicatorCount > 0
    ensures indicatorCount == PositiveCount(details)
  {
    details := RunChecks(host);
    isVM := AnyPositive(details);
    indicatorCount := CountPositive(details);
    PositiveCountPositive(details);
  }

  /** The report carries the fifteen keys in source order. */
  lemma IndicatorNames(host: HostSnapshot)
    ensures |Indicators(host)| == |REPORT_NAMES|
    ensures forall i :: 0 <= i < |REPORT_NAMES| ==> Indicators(host)[i].0 == REPORT_NAMES[i]
  {
  }

  /** The report's keys are fifteen different names, so the dictionary has
      exactly fifteen entries, each assigned once. */
  lemma ReportNamesDistinct()
    ensures forall i, j :: 0 <= i < j < |REPORT_NAMES| ==> REPORT_NAMES[i] != REPORT_NAMES[j]
  {
  }

  /** When every query throws before its first record, no registry key and no
      file exists, the thermal rule is the only positive entry. */
  lemma OnlyThermalSurvivesFailure(host: HostSnapshot)
    requires host.bios.rows == [] && host.computerSystem.rows == [] && host.videoControllerNames.rows == []
    requires host.processorNames.rows == [] && host.adapterMacs.rows == [] && host.totalPhysicalMemory.rows == []
    requires host.processorDescriptions.rows == [] && host.registryArtifacts == map[] && host.processNames.rows == []
    requires host.serviceNames.rows == [] && host.driverNames.rows == [] && host.hardwareIds.rows == []
    requires host.temperatureProbes.rows == [] && host.disks.rows == [] && host.existingPaths == {}
    ensures forall i :: 0 <= i < |REPORT_NAMES| ==> (Indicators(host)[i].1 <==> REPORT_NAMES[i] == "Thermal Information")
  {
    ReportNamesDistinct();
  }

  /** A null MAC address is "" and matches no prefix. */
  lemma NullMacNeverMatches()
    ensures !MacIsVirtual(None)
  {
  }

  /** The MAC rule ignores letter case: lower-cased and upper-cased input agree. */
  lemma MacRuleIgnoresCase(mac: string)
    ensures MacIsVirtual(Some(mac)) == MacIsVirtual(Some(ToLower(mac)))
  {
    UpperOfLower(mac);
  }

  /** The list entry "VGAuthService" has upper-case letters, so no lower-cased
      process name equals it: the process rule matches only the other nine. */
  lemma VGAuthServiceNeverMatches(name: string)
    ensures ToLower(name) != "VGAuthService"
    ensures ProcessIsVmTool(name) <==> ToLower(name) in VM_PROCESSES[..3] + VM_PROCESSES[4..]
  {
    var lower := ToLower(name);
    assert |lower| == 0 || !IsUpperLetter(lower[0]);
    assert IsUpperLetter("VGAuthService"[0]);
  }

  /** Any reported memory below 2 GiB, and a null total, is suspicious. */
  lemma SmallMemoryIsSuspicious(total: Option<nat>)
    requires total.GetOr(0) < TWO_GIB
    ensures MemoryIsSuspicious(total)
  {
  }
}
