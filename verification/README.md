# AntiVMSpoofTool services in Dafny

AntiVMSpoofTool is a Windows tool with two jobs. It tells whether it runs
inside a virtual machine, and it overwrites the identity strings that such
detection inspects. This project models the four service classes that hold
its logic, and proves what they promise.

- **RegistryHelper** (`registry.dfy`). The registry is a class with three
  fields:
  - the existing keys;
  - a map from (hive, subkey path, value name) to the value's data;
  - a fault oracle that says which value locations the operating system
    refuses ("access denied") or fails on.

  The helper's three methods change it in place. Each is specified by a pure
  function on a `Store` value: `Put`, `Read` or `Remove`. The model covers
  the hive table, the split of a key path on `\` and the two catch clauses
  that rewrap failures.
- **SpoofingService, identity mutation** (`spoofing.dfy`). `SpoofBIOS`,
  `ChangeMachineGuid` and `ChangeHostName` are ordered lists of registry
  sets. They run inside one try block, so the first failing set ends the
  operation, earlier sets stay, and the failure is wrapped.
- **SpoofingService, passive detector** (`detection.dfy`). The fifteen
  `Check*` rules are scans over the records the management queries, the
  process list, the registry and the file system deliver. `DetectVirtualization`
  builds the fifteen-entry report from them, with the verdict and the
  indicator count.
- **AdvancedDetectionService** (`advanced.dfy`). Nine probes fill one shared
  dictionary, a class whose indexer assignment is a method. Each native
  call is an input that either returns a value or throws. Every probe is
  proved to leave the dictionary as a fold of its list of assignments over
  the old dictionary. The finished report is proved to hold, for each key,
  exactly what that key's own probe recorded.
- **StartupHelper** (`startup.dfy`). Three operations on the current
  user's Run value:
  - the executable path, rewritten from `.dll` to `.exe` and quoted;
  - enable, disable and query.

`text.dfy` holds the string operations the services use: ASCII case
mapping, ordinal `Contains`/`StartsWith`/`EndsWith`, and `Split`/`Join`.
`maps.dfy` holds three map-union facts. `wrappers.dfy` holds `Option`,
`Result` and `Outcome`.

Neither detector has an "inconclusive" state:
- in the passive detector, a failing rule returns `false`, except the
  thermal rule, which returns `true`;
- in the active detector, a failing probe leaves its keys unset, except
  the port probe, which records `false`.

## Model

| member | source | states |
|---|---|---|
| `Text.ToLower` | Services/AdvancedDetectionService.cs:204 | lower-casing keeps the length and leaves no upper-case letter |
| `Text.ToUpper` | Services/RegistryHelper.cs:88 | upper-casing keeps the length and leaves no lower-case letter |
| `Text.ContainsIffOccurs` | Services/AdvancedDetectionService.cs:204 | `Contains` holds exactly when the substring occurs at some index |
| `Text.Split` | Services/RegistryHelper.cs:56 | splitting yields at least one piece, and no piece holds the separator |
| `Text.JoinSplit` | Services/RegistryHelper.cs:56-58 | joining the pieces of a split with the separator gives back the original string |
| `Text.SplitJoin` | Services/RegistryHelper.cs:56-58 | splitting a join of separator-free pieces gives back the pieces |
| `RegistryHelper.GetRegistryKeySpec` | Services/RegistryHelper.cs:86-97 | a recognised hive's name equals the upper-cased input; any other input matches no hive and fails with "Invalid registry hive: " plus the input |
| `RegistryHelper.HiveNamesAnyCase` | Services/RegistryHelper.cs:88-94 | each of the five hive names resolves to its hive in upper case and in lower case |
| `RegistryHelper.SplitKeyPath` | Services/RegistryHelper.cs:56-58 | the hive part of a split key path holds no backslash |
| `RegistryHelper.SplitKeyPathRebuilds` | Services/RegistryHelper.cs:56-58 | with a backslash, hive + `\` + subkey path rebuilds the key path; without one, the subkey path is empty |
| `RegistryHelper.SplitKeyPathIsParse` | Services/RegistryHelper.cs:56-58 | the split and re-join cut the key path at its first backslash |
| `RegistryHelper.LocateSpec` | Services/RegistryHelper.cs:13 | a key path locates exactly when its first segment names a hive in any case; the location keeps the remaining segments and the value name; otherwise the failure is an invalid argument |
| `RegistryHelper.LocateKeyPath` | Services/SpoofingService.cs:11-13 | a constant key path written as hive root + `\` + subkey points at that hive and subkey, whatever backslashes the subkey holds |
| `RegistryHelper.RethrowSpec` | Services/RegistryHelper.cs:16-27 | access denied is rethrown as access denied; any other failure is wrapped with the original as inner cause; the message names key path and value name |
| `RegistryHelper.PutSpec` | Services/RegistryHelper.cs:9-28 | a set succeeds exactly when the root is known and the location is not refused; success stores the value, creates the key, and changes no other value; failure changes nothing and raises the set error |
| `RegistryHelper.RemoveSpec` | Services/RegistryHelper.cs:52-84 | a delete removes at most its own value; an unknown hive is a wrapped invalid argument; a missing key or value is a silent success |
| `RegistryHelper.SetThenRead` | Services/RegistryHelper.cs:13-36 | after a successful set, a read of the same value returns the data written |
| `RegistryHelper.RemoveThenRead` | Services/RegistryHelper.cs:34-68 | after a successful delete, a read of the same value finds nothing |
| `RegistryHelper.RemoveIdempotent` | Services/RegistryHelper.cs:64-66 | deleting a second time changes nothing and succeeds |
| `RegistryHelper.SetRegistryValue` | Services/RegistryHelper.cs:9-28 | the new registry and the outcome are those of `Put`, and every value stays under an existing key |
| `RegistryHelper.GetRegistryValue` | Services/RegistryHelper.cs:30-50 | the result is that of `Read`; returned data other than the default is stored at the location |
| `RegistryHelper.DeleteRegistryValue` | Services/RegistryHelper.cs:52-84 | the new registry and the outcome are those of `Remove`, and every value stays under an existing key |
| `StartupHelper.ExecutablePathSpec` | Services/StartupHelper.cs:20-23 | the rewrite keeps the length and never yields a ".dll" path; a ".dll" path gets ".exe" with the same stem; any other path is unchanged |
| `StartupHelper.ExecutablePathIdempotent` | Services/StartupHelper.cs:20-23 | rewriting an already rewritten path changes nothing |
| `StartupHelper.StartupCommandUnquotes` | Services/StartupHelper.cs:26 | the stored command is the executable path between one leading and one trailing double quote |
| `StartupHelper.EnabledSpec` | Services/StartupHelper.cs:54-65 | startup counts as enabled exactly when the Run value exists and reading it is not refused |
| `StartupHelper.EnableSpec` | Services/StartupHelper.cs:13-37 | enabling fails exactly when the Run value is refused, then changes nothing and wraps the helper's error under "Failed to enable startup: "; success stores the quoted command, adds only the Run key to the key set, and keeps every other value with its data |
| `StartupHelper.EnableThenEnabled` | Services/StartupHelper.cs:13-65 | after a successful enable, the query reports enabled |
| `StartupHelper.DisableSpec` | Services/StartupHelper.cs:39-52 | disabling removes only the Run value; a missing value is a successful no-op; a failure changes nothing and wraps the error under "Failed to disable startup: " |
| `StartupHelper.DisableThenDisabled` | Services/StartupHelper.cs:39-65 | after a successful disable, the query reports disabled |
| `StartupHelper.DisableIdempotent` | Services/StartupHelper.cs:43 | disabling twice is disabling once |
| `StartupHelper.EnableStartup` | Services/StartupHelper.cs:13-37 | the new registry and the outcome are those of `Enable` |
| `StartupHelper.DisableStartup` | Services/StartupHelper.cs:39-52 | the new registry and the outcome are those of `Disable` |
| `StartupHelper.IsStartupEnabled` | Services/StartupHelper.cs:54-65 | returns, without failing, whether the Run value exists and is readable |
| `SpoofingService.Committed` | Services/SpoofingService.cs:19-31 | the number of leading sets that succeed: every set before it succeeds, and the set right after them, if any, is refused |
| `SpoofingService.RunWritesConsistent` | Services/SpoofingService.cs:19-31 | a run of sets keeps every value under an existing key |
| `SpoofingService.RunWritesEffect` | Services/SpoofingService.cs:19-36 | a run commits exactly its leading successful sets, in order, on the old registry; it passes when all succeed, else it fails with the first failing set's error |
| `SpoofingService.RunWritesIdempotent` | Services/SpoofingService.cs:19-31 | running the same sets again on the registry a run left changes nothing and ends the same way |
| `SpoofingService.RetryCompletes` | Services/SpoofingService.cs:19-36 | a failed run that is retried successfully ends with the same values as one clean run |
| `SpoofingService.SetValues` | Services/SpoofingService.cs:19-31 | the sets run in order and the first failure ends the block; the registry and the outcome are those of `RunWrites` |
| `SpoofingService.SpoofBIOS` | Services/SpoofingService.cs:15-38 | the seven BIOS sets run in order; a failure is wrapped as "Failed to spoof BIOS information" |
| `SpoofingService.BiosProfileShape` | Services/SpoofingService.cs:22-30 | all seven BIOS sets go to the BIOS key under seven different value names |
| `SpoofingService.SpoofBiosPartialFailure` | Services/SpoofingService.cs:19-36 | a failure at field k leaves fields before k set to their profile values and later fields as they were, and wraps the failing set's error |
| `SpoofingService.ChangeMachineGuid` | Services/SpoofingService.cs:40-55 | the one set of the new identifier, a failure wrapped as "Failed to change Machine GUID" |
| `SpoofingService.MachineGuidStored` | Services/SpoofingService.cs:46-47 | after success, the cryptography key's MachineGuid value holds the new identifier |
| `SpoofingService.ChangeHostName` | Services/SpoofingService.cs:57-81 | the four host-name sets run in order; a failure is wrapped as "Failed to change hostname" |
| `SpoofingService.ChangeHostNameIdempotent` | Services/SpoofingService.cs:63-73 | changing the host name twice to the same name gives the same registry and outcome as once |
| `SpoofingService.ChangeHostNameEverywhere` | Services/SpoofingService.cs:63-73 | success means all four sets succeeded, and then all four locations hold the new name |
| `SpoofingChecks.ScanRows` | Services/SpoofingService.cs:134-147 | the early-return loop finds a match exactly when some delivered record satisfies the rule |
| `SpoofingChecks.CheckSystemBiosName` | Services/SpoofingService.cs:451-477 | true exactly when some BIOS record's manufacturer contains vmware, virtualbox or qemu, or its version contains virtual, after lower-casing |
| `SpoofingChecks.CheckSystemManufacturer` | Services/SpoofingService.cs:529-555 | true exactly when some computer-system record's manufacturer or model has a virtualization marker |
| `SpoofingChecks.CheckVideoController` | Services/SpoofingService.cs:479-503 | true exactly when some lower-cased controller name contains one of its four markers |
| `SpoofingChecks.CheckProcessorName` | Services/SpoofingService.cs:505-527 | true exactly when some lower-cased processor name contains virtual or qemu |
| `SpoofingChecks.CheckMACAddress` | Services/SpoofingService.cs:128-155 | true exactly when some upper-cased MAC address starts with one of the six vendor prefixes |
| `SpoofingChecks.CheckMemoryConfiguration` | Services/SpoofingService.cs:157-186 | true exactly when some reported total is below 2 GiB or a power of two |
| `SpoofingChecks.CheckCPUInstructions` | Services/SpoofingService.cs:188-212 | true exactly when some lower-cased processor description contains hypervisor, vmx or svm |
| `SpoofingChecks.CheckRegistryArtifacts` | Services/SpoofingService.cs:214-254 | true exactly when one of the listed subkeys exists and one of its values' data has a virtualization marker |
| `SpoofingChecks.CheckVMProcesses` | Services/SpoofingService.cs:256-286 | true exactly when some lower-cased process name is a member of the tool list |
| `SpoofingChecks.CheckVMServices` | Services/SpoofingService.cs:288-316 | true exactly when some lower-cased service name contains a listed service |
| `SpoofingChecks.CheckDriverSignatures` | Services/SpoofingService.cs:318-342 | true exactly when some lower-cased driver name contains one of the four guest-driver names |
| `SpoofingChecks.CheckHardwareIDs` | Services/SpoofingService.cs:344-367 | true exactly when some lower-cased hardware ID contains ven_15ad, ven_80ee or qemu |
| `SpoofingChecks.CheckThermalInformation` | Services/SpoofingService.cs:369-389 | true exactly when no temperature probe is delivered, including a query that throws before its first record |
| `SpoofingChecks.CheckStorageCharacteristics` | Services/SpoofingService.cs:391-419 | true exactly when some disk's model or manufacturer has a virtualization marker |
| `SpoofingChecks.CheckVMFiles` | Services/SpoofingService.cs:421-449 | true exactly when one of the eight guest-tool paths exists |
| `SpoofingChecks.PositiveCountPositive` | Services/SpoofingService.cs:115-116 | the indicator count is positive exactly when some entry is positive |
| `SpoofingChecks.RunMachineChecks` | Services/SpoofingService.cs:90-101 | the first seven entries, in source order, each with its rule's verdict |
| `SpoofingChecks.RunArtifactChecks` | Services/SpoofingService.cs:102-113 | the last eight entries, in source order, each with its rule's verdict |
| `SpoofingChecks.RunChecks` | Services/SpoofingService.cs:87-113 | the report is the fifteen rule verdicts in source order |
| `SpoofingChecks.AnyPositive` | Services/SpoofingService.cs:115 | the verdict is true exactly when some entry is true |
| `SpoofingChecks.CountPositive` | Services/SpoofingService.cs:116 | the logged count is the number of true entries |
| `SpoofingChecks.DetectVirtualization` | Services/SpoofingService.cs:83-126 | the report is the fifteen verdicts; the machine is virtual exactly when some entry is true, exactly when the count is positive |
| `SpoofingChecks.IndicatorNames` | Services/SpoofingService.cs:91-113 | the report carries the fifteen keys in source order |
| `SpoofingChecks.ReportNamesDistinct` | Services/SpoofingService.cs:91-113 | the fifteen keys are pairwise different, so each entry is assigned once |
| `SpoofingChecks.OnlyThermalSurvivesFailure` | Services/SpoofingService.cs:369-389 | when every query delivers nothing, the thermal entry is the only positive one |
| `SpoofingChecks.NullMacNeverMatches` | Services/SpoofingService.cs:136 | a null MAC address reads as "" and matches no prefix |
| `SpoofingChecks.MacRuleIgnoresCase` | Services/SpoofingService.cs:136-143 | the MAC rule gives the same answer for an address and its lower-cased form |
| `SpoofingChecks.VGAuthServiceNeverMatches` | Services/SpoofingService.cs:260-275 | no lower-cased name equals "VGAuthService", so the rule matches only the other nine names |
| `SpoofingChecks.SmallMemoryIsSuspicious` | Services/SpoofingService.cs:166-170 | any total below 2147483648 bytes, and a null total, is suspicious |
| `AdvancedDetectionService.KeyNameRoundTrip` | Services/AdvancedDetectionService.cs:72-277 | parsing the name of any dictionary key gives the key back |
| `AdvancedDetectionService.KeyNameInjective` | Services/AdvancedDetectionService.cs:72-277 | different keys have different names, so they are different dictionary entries |
| `AdvancedDetectionService.HypervisorBitIsTopBit` | Services/AdvancedDetectionService.cs:71 | the hypervisor test is true exactly for ECX values from 2^31 up, i.e. bit 31 set |
| `AdvancedDetectionService.PackWordRoundTrip` | Services/AdvancedDetectionService.cs:77-79 | splitting the word packed from four bytes gives the bytes back, least significant first |
| `AdvancedDetectionService.VendorIdOfPacked` | Services/AdvancedDetectionService.cs:76-80 | for every twelve bytes held little-endian in EBX, ECX and EDX, the vendor string is those bytes as ASCII, byte for byte, with '?' for each byte from 0x80 on |
| `AdvancedDetectionService.VMwareSignatureDecodes` | Services/AdvancedDetectionService.cs:76-82 | VMware's leaf registers decode to "VMwareVMware" |
| `AdvancedDetectionService.VBoxSignatureDecodes` | Services/AdvancedDetectionService.cs:76-83 | VirtualBox's leaf registers decode to "VBoxVBoxVBox" |
| `AdvancedDetectionService.KvmSignatureDecodes` | Services/AdvancedDetectionService.cs:76-84 | KVM's leaf registers decode to "KVMKVMKVM" and three NUL characters |
| `AdvancedDetectionService.RecordedSpec` | Services/AdvancedDetectionService.cs:23 | the dictionary after a list of assignments holds exactly the assigned keys; each value was assigned to its key, and the last assignment to a key wins |
| `AdvancedDetectionService.CpuidWritesSpec` | Services/AdvancedDetectionService.cs:65-90 | the hypervisor key is bit 31 of leaf 1's ECX and survives a failing vendor leaf; the vendor keys are set, to the three substring tests, only when both leaves return |
| `AdvancedDetectionService.VMwareSignatureDetected` | Services/AdvancedDetectionService.cs:82 | under VMware's registers the VMware vendor key is true |
| `AdvancedDetectionService.VBoxSignatureDetected` | Services/AdvancedDetectionService.cs:83 | under VirtualBox's registers the VBox vendor key is true |
| `AdvancedDetectionService.KvmSignatureDetected` | Services/AdvancedDetectionService.cs:84 | under KVM's registers the KVM vendor key is true |
| `AdvancedDetectionService.PortWritesSpec` | Services/AdvancedDetectionService.cs:92-106 | the port key is always the probe's only key, true exactly when both port calls return and the read-back is 0x564D5868 |
| `AdvancedDetectionService.DebuggerWritesSpec` | Services/AdvancedDetectionService.cs:108-128 | the debugger key is the query's answer; the breakpoint key is set only when the thread context was read, and is then true exactly when one of Dr0..Dr3 is non-zero |
| `AdvancedDetectionService.TimingThreshold` | Services/AdvancedDetectionService.cs:150-153 | for a positive frequency, the timing rule holds exactly when more than a millisecond's worth of ticks elapsed |
| `AdvancedDetectionService.TimingWritesSpec` | Services/AdvancedDetectionService.cs:130-159 | the timing key is set exactly when the counter calls return; with a positive frequency it says that more than a millisecond passed |
| `AdvancedDetectionService.ResolutionRulesAgree` | Services/AdvancedDetectionService.cs:170-227 | the two probes' VM-resolution rules agree; both mean 800x600 or 1024x768; both imply a low resolution |
| `AdvancedDetectionService.InputWritesSpec` | Services/AdvancedDetectionService.cs:161-186 | the resolution key needs the metrics; the cursor key needs both cursor reads as well, and is true exactly when the cursor stayed put |
| `AdvancedDetectionService.SameMetricsSameVerdict` | Services/AdvancedDetectionService.cs:166-227 | with the same metrics, the input and screen probes record the same VM-resolution verdict, and it implies the low-resolution key |
| `AdvancedDetectionService.NameWritesSpec` | Services/AdvancedDetectionService.cs:202-207 | one name's assignments are true flags for exactly the list entries that name contains |
| `AdvancedDetectionService.ProcessWritesSpec` | Services/AdvancedDetectionService.cs:188-215 | every process assignment is a true flag for a list entry; an entry is flagged exactly when some lower-cased process name contains it |
| `AdvancedDetectionService.ProcessEntriesSpec` | Services/AdvancedDetectionService.cs:200-207 | the process probe's keys are only ever true and only for list entries, each present exactly when some process name contains it |
| `AdvancedDetectionService.VGAuthServiceNeverFlagged` | Services/AdvancedDetectionService.cs:194-206 | "VGAuthService" keeps its capitals on the list, so its key is never recorded |
| `AdvancedDetectionService.MutexWritesSpec` | Services/AdvancedDetectionService.cs:243-260 | every mutex assignment is a true flag for a list entry, made exactly for names whose creation reported an existing mutex |
| `AdvancedDetectionService.MutexEntriesSpec` | Services/AdvancedDetectionService.cs:235-261 | the mutex probe's keys are only ever true, only for the six listed names, and exactly for those that already existed |
| `AdvancedDetectionService.PerformanceWritesSpec` | Services/AdvancedDetectionService.cs:263-283 | CPU count ≤ 2 and CPU type ≠ 586 are recorded with the system information; uptime under five minutes also needs the tick count |
| `AdvancedDetectionService.ProbeKeysOwned` | Services/AdvancedDetectionService.cs:28-52 | each probe assigns only keys it owns |
| `AdvancedDetectionService.RunProbesByOwner` | Services/AdvancedDetectionService.cs:28-52 | when probes keep to their own keys, after the first i probes each key holds what its own probe recorded |
| `AdvancedDetectionService.ReportByProbe` | Services/AdvancedDetectionService.cs:19-63 | probes are isolated: every report key holds what its own probe recorded, whatever the other probes' calls did |
| `AdvancedDetectionService.ReportKey` | Services/AdvancedDetectionService.cs:19-63 | a single key of the report is present and valued exactly as its own probe recorded it |
| `AdvancedDetectionService.PortAlwaysReported` | Services/AdvancedDetectionService.cs:97-105 | the port key is in every report |
| `AdvancedDetectionService.ReportProcessKeys` | Services/AdvancedDetectionService.cs:192-207 | process keys in the report are true and name list entries |
| `AdvancedDetectionService.ReportMutexKeys` | Services/AdvancedDetectionService.cs:237-253 | mutex keys in the report are true and name list entries |
| `AdvancedDetectionService.ResultDictionary.constructor` | Services/AdvancedDetectionService.cs:23 | a new dictionary is empty |
| `AdvancedDetectionService.ResultDictionary.Set` | Services/AdvancedDetectionService.cs:72 | the indexer adds the key or overwrites its value and changes nothing else |
| `AdvancedDetectionService.DetectCPUID` | Services/AdvancedDetectionService.cs:65-90 | the dictionary becomes the old one with the CPUID assignments applied in order |
| `AdvancedDetectionService.DetectVMwarePort` | Services/AdvancedDetectionService.cs:92-106 | the dictionary becomes the old one with the port assignment applied |
| `AdvancedDetectionService.DetectDebugger` | Services/AdvancedDetectionService.cs:108-128 | the dictionary becomes the old one with the debugger assignments applied in order |
| `AdvancedDetectionService.DetectTimingAnomalies` | Services/AdvancedDetectionService.cs:130-159 | the dictionary becomes the old one with the timing assignment applied |
| `AdvancedDetectionService.DetectInputAnomalies` | Services/AdvancedDetectionService.cs:161-186 | the dictionary becomes the old one with the input assignments applied in order |
| `AdvancedDetectionService.FlagProcess` | Services/AdvancedDetectionService.cs:202-208 | the inner loop applies one name's flags to the dictionary, list entry by list entry |
| `AdvancedDetectionService.DetectSuspiciousProcesses` | Services/AdvancedDetectionService.cs:188-215 | the dictionary becomes the old one with every process name's flags applied in enumeration order |
| `AdvancedDetectionService.DetectScreenAnomalies` | Services/AdvancedDetectionService.cs:217-233 | the dictionary becomes the old one with the two screen assignments applied |
| `AdvancedDetectionService.DetectVMMutexes` | Services/AdvancedDetectionService.cs:235-261 | the dictionary becomes the old one with the mutex flags applied in list order |
| `AdvancedDetectionService.DetectPerformanceAnomalies` | Services/AdvancedDetectionService.cs:263-283 | the dictionary becomes the old one with the performance assignments applied in order |
| `AdvancedDetectionService.DetectVirtualization` | Services/AdvancedDetectionService.cs:19-63 | a new dictionary filled by the nine probes in source order: the report whose per-key isolation `ReportByProbe` proves |

## Left out

- Native calls are inputs, one per call, each returning a value or throwing. These are CPUID, the backdoor port, IsDebuggerPresent, the thread context, the performance counter, system metrics, the cursor position, CreateMutex/GetLastError, GetSystemInfo and GetTickCount64. `NativeMethods` is not part of this model.
- Management (WMI) queries, the process list, registry enumeration and file existence are also inputs. Each query is the list of records delivered before it ended or threw.
- Logging (`Utils/Logger.cs`) is left out. It changes no state the model observes.
- `Task.Run`, `async`/`await` and `Task.Delay(100)` are left out. Every operation is modelled as synchronous.
- `Guid.NewGuid()` is left out. The new machine identifier is a parameter.
- The assembly location that StartupHelper reads is a parameter.
- Registry value data is modelled as strings only, the only kind the services write.
- The framework's registry path parsing is modelled with the same five hive roots as the helper. Its HKEY_PERFORMANCE_DATA root is not modelled.
- `SpoofingChecks.CheckMemoryConfiguration`: the floating-point `Math.Log(total, 2)` integrality test is replaced by an exact power-of-two test, and `double` rounding is not modelled. Worked out in IEEE doubles with a correctly rounded logarithm, the two tests differ in two ways:
  - The source's quotient `ln(total) / ln(2)` is not integral for the powers of two 2^31, 2^39, 2^47, 2^51, 2^55, 2^58, 2^59 and 2^62. For 2^31 (exactly 2 GiB) it is 31.000000000000004. So the source does not flag these totals, and the model does.
  - From about 2^48 on, totals a few bytes away from a power of two give an integral quotient, for example 2^48 - 1 and 2^50 + 1. So the source flags these totals, and the model does not.
- `AdvancedDetectionService.TimingWritesSpec`: the microsecond computation is modelled in exact real arithmetic. It does not model `double` rounding or overflow of the 64-bit tick difference.
- The timing probe's `Math.Sqrt` busy loop is left out. Its duration is part of the counter readings.
- `Text.ToLower`, `Text.ToUpper`: the culture-specific `ToLower()` and `ToUpper()` are modelled as ASCII letter mapping. The probe strings, MAC prefixes and hive names are ASCII.
- `Text.StartsWith`, `Text.EndsWith`: the culture-sensitive `string.StartsWith` and `string.EndsWith` are modelled as ordinal comparisons. This covers the MAC prefixes and the ".dll" test of StartupHelper.cs:20.
- `RegistryHelper.Locate`: registry locations are compared as exact strings, but Windows compares key paths and value names without regard to letter case. `PutSpec`'s "no other value changes" therefore does not cover another spelling of the same location. The services only use their own constant paths, each spelled one way.
- `RegistryHelper.Put`: a set adds only its own key to the key set. `Registry.SetValue` also creates any missing parent keys, so a later read under such a parent key returns the default in the source and nothing in the model.
- The invalid-root message `ROOT_MESSAGE` is the .NET form, which ends with " (Parameter 'keyName')". .NET Framework ends the same message with a line naming the parameter instead.
- `SpoofingChecks.CheckRegistryArtifacts`: an exception while opening or reading a listed subkey is not modelled. It would end the scan with `false`.
- The outer catch of the active detector's `DetectVirtualization` is left out. Every probe catches its own exceptions, so nothing reaches it.
- The UI (`MainWindow.xaml.cs`) and the administrator check (`App.xaml.cs`) are not part of this model.
