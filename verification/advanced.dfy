/** Services/AdvancedDetectionService.cs: the active detector. Nine probes
    run in a fixed order and record their verdicts in one shared dictionary;
    each probe catches its own exceptions, so a failing probe keeps what it
    recorded before the failure and never stops the probes after it.

    The native calls (CPUID, the VMware backdoor port, thread context, the
    performance counter, system metrics, the cursor, mutex creation, system
    information, the tick count) and the process list are inputs: each call
    either returns a value or throws. */
module AdvancedDetectionService {
  import opened Wrappers
  import opened Text
  import opened Maps

  /** The outcome of one native call. */
  datatype Call<+T> = Returned(value: T) | Threw

  /** The dictionary's keys. `KeyName` renders each as the source's string;
      the two parameterised keys are the dynamic ones. */
  datatype Key =
    | HypervisorPresent | VMwareVendorId | VBoxVendorId | KvmVendorId
    | VMwarePort
    | DebuggerPresent | HardwareBreakpoints
    | TimingAnomaly
    | CommonVmResolution | NoMouseMovement
    | SuspiciousProcess(process: string)
    | LowResolution | StandardVmResolution
    | MutexFound(mutex: string)
    | LowCpuCount | SuspiciousCpuType | ShortUptime

  const PROCESS_PREFIX := "Suspicious Process: "
  const MUTEX_PREFIX := "VM Mutex Found: "

  function KeyName(k: Key): string {
    match k
    case HypervisorPresent => "Hypervisor Present (CPUID)"
    case VMwareVendorId => "VMware Vendor ID"
    case VBoxVendorId => "VBox Vendor ID"
    case KvmVendorId => "KVM Vendor ID"
    case VMwarePort => "VMware I/O Port"
    case DebuggerPresent => "Debugger Present"
    case HardwareBreakpoints => "Hardware Breakpoints"
    case TimingAnomaly => "Timing Anomaly"
    case CommonVmResolution => "Common VM Resolution"
    case NoMouseMovement => "No Mouse Movement"
    case SuspiciousProcess(p) => PROCESS_PREFIX + p
    case LowResolution => "Low Resolution"
    case StandardVmResolution => "Standard VM Resolution"
    case MutexFound(m) => MUTEX_PREFIX + m
    case LowCpuCount => "Low CPU Count"
    case SuspiciousCpuType => "Suspicious CPU Type"
    case ShortUptime => "Short Uptime"
  }

  /** The fixed key a name of this length and first character can only be. */
  function FixedByShape(length: nat, first: char): Option<Key> {
    match (length, first)
    case (26, 'H') => Some(HypervisorPresent)
    case (16, 'V') => Some(VMwareVendorId)
    case (14, 'V') => Some(VBoxVendorId)
    case (13, 'K') => Some(KvmVendorId)
    case (15, 'V') => Some(VMwarePort)
    case (16, 'D') => Some(DebuggerPresent)
    case (20, 'H') => Some(HardwareBreakpoints)
    case (14, 'T') => Some(TimingAnomaly)
    case (20, 'C') => Some(CommonVmResolution)
    case (17, 'N') => Some(NoMouseMovement)
    case (14, 'L') => Some(LowResolution)
    case (22, 'S') => Some(StandardVmResolution)
    case (13, 'L') => Some(LowCpuCount)
    case (19, 'S') => Some(SuspiciousCpuType)
    case (12, 'S') => Some(ShortUptime)
    case _ => None
  }

  /** Reads a dictionary key back: the fixed names first, then the dynamic prefixes. */
  function ParseKey(name: string): Option<Key> {
    var fixed := if name == [] then None else FixedByShape(|name|, name[0]);
    if fixed.Some? && KeyName(fixed.value) == name then fixed
    else if StartsWith(name, PROCESS_PREFIX) then Some(SuspiciousProcess(name[|PROCESS_PREFIX|..]))
    else if StartsWith(name, MUTEX_PREFIX) then Some(MutexFound(name[|MUTEX_PREFIX|..]))
    else None
  }

  /** The two parameterised keys read back from their prefixes. */
  lemma DynamicKeyRoundTrip(k: Key)
    requires k.SuspiciousProcess? || k.MutexFound?
    ensures ParseKey(KeyName(k)) == Some(k)
  {
    var n := KeyName(k);
    if k.SuspiciousProcess? {
      assert n[|PROCESS_PREFIX|..] == k.process;
      assert n[1] != KeyName(StandardVmResolution)[1];
    } else {
      assert n[|MUTEX_PREFIX|..] == k.mutex;
      assert n[0] != PROCESS_PREFIX[0];
      assert n[2] != KeyName(VMwareVendorId)[2];
    }
  }

  /** The CPUID and port names are found by their length and first character. */
  lemma LowLevelKeyRoundTrip(k: Key)
    requires k.HypervisorPresent? || k.VMwareVendorId? || k.VBoxVendorId? || k.KvmVendorId? || k.VMwarePort?
    ensures ParseKey(KeyName(k)) == Some(k)
  {
  }

  /** So are the debugger, timing and input names. */
  lemma EnvironmentKeyRoundTrip(k: Key)
    requires k.DebuggerPresent? || k.HardwareBreakpoints? || k.TimingAnomaly? || k.CommonVmResolution? || k.NoMouseMovement?
    ensures ParseKey(KeyName(k)) == Some(k)
  {
  }

  /** And the screen and performance names. */
  lemma MachineKeyRoundTrip(k: Key)
    requires k.LowResolution? || k.StandardVmResolution? || k.LowCpuCount? || k.SuspiciousCpuType? || k.ShortUptime?
    ensures ParseKey(KeyName(k)) == Some(k)
  {
  }

  /** Reading a rendered key gives the key back. */
  lemma KeyNameRoundTrip(k: Key)
    ensures ParseKey(KeyName(k)) == Some(k)
  {
    match k
    case SuspiciousProcess(_) => DynamicKeyRoundTrip(k);
    case MutexFound(_) => DynamicKeyRoundTrip(k);
    case HypervisorPresent | VMwareVendorId | VBoxVendorId | KvmVendorId | VMwarePort => LowLevelKeyRoundTrip(k);
    case DebuggerPresent | HardwareBreakpoints | TimingAnomaly | CommonVmResolution | NoMouseMovement =>
      EnvironmentKeyRoundTrip(k);
    case LowResolution | StandardVmResolution | LowCpuCount | SuspiciousCpuType | ShortUptime => MachineKeyRoundTrip(k);
  }

  /** Different keys are different dictionary entries. */
  lemma KeyNameInjective(a: Key, b: Key)
    ensures KeyName(a) == KeyName(b) ==> a == b
  {
    KeyNameRoundTrip(a);
    KeyNameRoundTrip(b);
  }

  // ---- CPUID ----

  const CPUID_VENDOR_INFO: bv32 := 0x4000_0000
  const CPUID_HYPERVISOR_INFO: bv32 := 1

  /** The four registers CPUID returns. */
  datatype Registers = Registers(eax: bv32, ebx: bv32, ecx: bv32, edx: bv32)

  /** `(ecx & (1 << 31)) != 0`: the C# operands are widened to 64 bits, and
      the sign-extended mask meets the zero-extended register only in bit 31. */
  predicate HypervisorBit(ecx: bv32) {
    ecx & (1 << 31) != 0
  }

  /** The hypervisor bit is set exactly for register values from 2^31 on. */
  lemma HypervisorBitIsTopBit(ecx: bv32)
    ensures HypervisorBit(ecx) <==> ecx >= 0x8000_0000
  {
  }

  /** `BitConverter.GetBytes(uint)`: the four bytes, least significant first. */
  function LittleEndianBytes(x: bv32): (b: seq<bv8>)
    ensures |b| == 4
  {
    [(x & 0xFF) as bv8, ((x >> 8) & 0xFF) as bv8, ((x >> 16) & 0xFF) as bv8, (x >> 24) as bv8]
  }

  /** The word whose little-endian bytes are `b`. */
  function PackWord(b: seq<bv8>): bv32
    requires |b| == 4
  {
    (b[0] as bv32) | ((b[1] as bv32) << 8) | ((b[2] as bv32) << 16) | ((b[3] as bv32) << 24)
  }

  /** The four bytes shifted into place come back out of their positions. */
  lemma PackBytes(b0: bv8, b1: bv8, b2: bv8, b3: bv8)
    ensures var x := (b0 as bv32) | ((b1 as bv32) << 8) | ((b2 as bv32) << 16) | ((b3 as bv32) << 24);
      && (x & 0xFF) as bv8 == b0 && ((x >> 8) & 0xFF) as bv8 == b1
      && ((x >> 16) & 0xFF) as bv8 == b2 && (x >> 24) as bv8 == b3
  {
  }

  /** Packing and splitting a word are inverse. */
  lemma PackWordRoundTrip(b: seq<bv8>)
    requires |b| == 4
    ensures LittleEndianBytes(PackWord(b)) == b
  {
    PackBytes(b[0], b[1], b[2], b[3]);
  }

  /** `Encoding.ASCII` decoding of one byte: bytes above 0x7F become '?'. */
  function AsciiChar(b: bv8): char {
    if b < 0x80 then (b as int) as char else '?'
  }

  /** `Encoding.ASCII.GetString`. */
  function AsciiString(bytes: seq<bv8>): (s: string)
    ensures |s| == |bytes|
  {
    seq(|bytes|, i requires 0 <= i < |bytes| => AsciiChar(bytes[i]))
  }

  /** The vendor string of leaf 0x40000000: EBX, ECX, EDX, little-endian. */
  function VendorId(ebx: bv32, ecx: bv32, edx: bv32): (id: string)
    ensures |id| == 12
  {
    AsciiString(LittleEndianBytes(ebx) + LittleEndianBytes(ecx) + LittleEndianBytes(edx))
  }

  /** The registers of leaf 0x40000000 under VMware: "VMwareVMware". */
  const VMWARE_SIGNATURE := Registers(0, 0x6177_4D56, 0x4D56_6572, 0x6572_6177)
  /** Under VirtualBox: "VBoxVBoxVBox". */
  const VBOX_SIGNATURE := Registers(0, 0x786F_4256, 0x786F_4256, 0x786F_4256)
  /** Under KVM: "KVMKVMKVM" and three NUL bytes. */
  const KVM_SIGNATURE := Registers(0, 0x4B4D_564B, 0x564B_4D56, 0x0000_004D)

  /** The vendor string is the three registers' four characters each, in order. */
  lemma VendorIdWords(ebx: bv32, ecx: bv32, edx: bv32)
    ensures VendorId(ebx, ecx, edx) ==
      AsciiString(LittleEndianBytes(ebx)) + AsciiString(LittleEndianBytes(ecx)) + AsciiString(LittleEndianBytes(edx))
  {
  }

  /** For every twelve bytes, the registers that hold them little-endian,
      four to a register in the order EBX, ECX, EDX, decode to those bytes
      read as ASCII, with '?' for each byte from 0x80 on. */
  lemma VendorIdOfPacked(b: seq<bv8>)
    requires |b| == 12
    ensures var id := VendorId(PackWord(b[..4]), PackWord(b[4..8]), PackWord(b[8..]));
      && id == AsciiString(b)
      && (forall i :: 0 <= i < 12 ==> (b[i] < 0x80 ==> id[i] == (b[i] as int) as char) && (b[i] >= 0x80 ==> id[i] == '?'))
  {
    PackWordRoundTrip(b[..4]);
    PackWordRoundTrip(b[4..8]);
    PackWordRoundTrip(b[8..]);
    assert b[..4] + b[4..8] + b[8..] == b;
  }

  /** VMware's registers decode to its signature. */
  lemma VMwareSignatureDecodes()
    ensures VendorId(VMWARE_SIGNATURE.ebx, VMWARE_SIGNATURE.ecx, VMWARE_SIGNATURE.edx) == "VMwareVMware"
  {
    VendorIdWords(VMWARE_SIGNATURE.ebx, VMWARE_SIGNATURE.ecx, VMWARE_SIGNATURE.edx);
    assert AsciiString(LittleEndianBytes(0x6177_4D56)) == "VMwa" by {
      assert LittleEndianBytes(0x6177_4D56) == [0x56, 0x4D, 0x77, 0x61];
    }
    assert AsciiString(LittleEndianBytes(0x4D56_6572)) == "reVM" by {
      assert LittleEndianBytes(0x4D56_6572) == [0x72, 0x65, 0x56, 0x4D];
    }
    assert AsciiString(LittleEndianBytes(0x6572_6177)) == "ware" by {
      assert LittleEndianBytes(0x6572_6177) == [0x77, 0x61, 0x72, 0x65];
    }
  }

  /** VirtualBox's registers decode to its signature. */
  lemma VBoxSignatureDecodes()
    ensures VendorId(VBOX_SIGNATURE.ebx, VBOX_SIGNATURE.ecx, VBOX_SIGNATURE.edx) == "VBoxVBoxVBox"
  {
    VendorIdWords(VBOX_SIGNATURE.ebx, VBOX_SIGNATURE.ecx, VBOX_SIGNATURE.edx);
    assert AsciiString(LittleEndianBytes(0x786F_4256)) == "VBox" by {
      assert LittleEndianBytes(0x786F_4256) == [0x56, 0x42, 0x6F, 0x78];
    }
  }

  /** KVM's registers decode to its signature. */
  lemma KvmSignatureDecodes()
    ensures VendorId(KVM_SIGNATURE.ebx, KVM_SIGNATURE.ecx, KVM_SIGNATURE.edx) == "KVMKVMKVM\0\0\0"
  {
    VendorIdWords(KVM_SIGNATURE.ebx, KVM_SIGNATURE.ecx, KVM_SIGNATURE.edx);
    assert AsciiString(LittleEndianBytes(0x4B4D_564B)) == "KVMK" by {
      assert LittleEndianBytes(0x4B4D_564B) == [0x4B, 0x56, 0x4D, 0x4B];
    }
    assert AsciiString(LittleEndianBytes(0x564B_4D56)) == "VMKV" by {
      assert LittleEndianBytes(0x564B_4D56) == [0x56, 0x4D, 0x4B, 0x56];
    }
    assert AsciiString(LittleEndianBytes(0x0000_004D)) == "M\0\0\0" by {
      assert LittleEndianBytes(0x0000_004D) == [0x4D, 0, 0, 0];
    }
  }

  // ---- Dictionary assignments ----

  /** One assignment `results[key] = value`. */
  datatype Entry = Entry(key: Key, value: bool)

  /** The dictionary `m` after the assignments `ws`, in order: an assignment
      adds its key or overwrites the value an earlier one left. */
  function Assign(m: map<Key, bool>, ws: seq<Entry>): map<Key, bool>
    decreases |ws|
  {
    if ws == [] then m
    else
      var last := ws[|ws| - 1];
      Assign(m, ws[..|ws| - 1])[last.key := last.value]
  }

  /** What the assignments `ws` leave in an empty dictionary. */
  function Recorded(ws: seq<Entry>): map<Key, bool> {
    Assign(map[], ws)
  }

  /** The keys the assignments `ws` write. */
  function WrittenKeys(ws: seq<Entry>): set<Key> {
    set w | w in ws :: w.key
  }

  /** Running two lists of assignments one after the other is running their concatenation. */
  lemma {:induction false} AssignAppend(m: map<Key, bool>, a: seq<Entry>, b: seq<Entry>)
    ensures Assign(m, a + b) == Assign(Assign(m, a), b)
    decreases |b|
  {
    if b != [] {
      assert (a + b)[..|a + b| - 1] == a + b[..|b| - 1];
      assert (a + b)[|a + b| - 1] == b[|b| - 1];
      AssignAppend(m, a, b[..|b| - 1]);
    } else {
      assert a + b == a;
    }
  }

  /** The assignments overwrite the earlier entries with what they record and
      keep every other entry. */
  lemma {:induction false} AssignIsUnion(m: map<Key, bool>, ws: seq<Entry>)
    ensures Assign(m, ws) == m + Recorded(ws)
    decreases |ws|
  {
    if ws != [] {
      var last := ws[|ws| - 1];
      AssignIsUnion(m, ws[..|ws| - 1]);
      UpdateIsUnion(m, Recorded(ws[..|ws| - 1]), last.key, last.value);
    }
  }

  /** The recorded keys are the written keys, each holding a value that was
      assigned to it, and the value of the last assignment to it. */
  lemma {:induction false} RecordedSpec(ws: seq<Entry>)
    ensures Recorded(ws).Keys == WrittenKeys(ws)
    ensures forall k :: k in Recorded(ws) ==> Entry(k, Recorded(ws)[k]) in ws
    ensures forall i :: 0 <= i < |ws| && (forall j :: i < j < |ws| ==> ws[j].key != ws[i].key) ==>
      Recorded(ws)[ws[i].key] == ws[i].value
    decreases |ws|
  {
    if ws != [] {
      var front := ws[..|ws| - 1];
      var last := ws[|ws| - 1];
      RecordedSpec(front);
      assert WrittenKeys(ws) == WrittenKeys(front) + {last.key} by {
        assert ws == front + [last];
      }
      forall k | k in Recorded(ws) ensures Entry(k, Recorded(ws)[k]) in ws {
        if k != last.key {
          assert Entry(k, Recorded(front)[k]) in front;
        }
      }
      forall i | 0 <= i < |ws| && (forall j :: i < j < |ws| ==> ws[j].key != ws[i].key)
        ensures Recorded(ws)[ws[i].key] == ws[i].value
      {
        if i < |ws| - 1 {
          assert ws[i] == front[i];
          assert forall j :: i < j < |front| ==> front[j].key != front[i].key by {
            forall j | i < j < |front| ensures front[j].key != front[i].key {
              assert front[j] == ws[j];
            }
          }
        }
      }
    }
  }

  /** One more assignment on a prefix. */
  lemma RecordedPrefix(ws: seq<Entry>, j: nat)
    requires 1 <= j <= |ws|
    ensures Recorded(ws[..j]) == Recorded(ws[..j - 1])[ws[j - 1].key := ws[j - 1].value]
  {
    assert ws[..j][..j - 1] == ws[..j - 1];
  }

  /** Up to four assignments, written out. */
  lemma RecordedShort(ws: seq<Entry>)
    requires 1 <= |ws| <= 4
    ensures |ws| == 1 ==> Recorded(ws) == map[ws[0].key := ws[0].value]
    ensures |ws| == 2 ==> Recorded(ws) == map[ws[0].key := ws[0].value][ws[1].key := ws[1].value]
    ensures |ws| == 3 ==>
      Recorded(ws) == map[ws[0].key := ws[0].value][ws[1].key := ws[1].value][ws[2].key := ws[2].value]
    ensures |ws| == 4 ==>
      Recorded(ws) == map[ws[0].key := ws[0].value][ws[1].key := ws[1].value][ws[2].key := ws[2].value][ws[3].key := ws[3].value]
  {
    assert ws[..0] == [];
    RecordedPrefix(ws, 1);
    if |ws| >= 2 {
      RecordedPrefix(ws, 2);
    }
    if |ws| >= 3 {
      RecordedPrefix(ws, 3);
    }
    if |ws| == 4 {
      RecordedPrefix(ws, 4);
    }
    assert ws[..|ws|] == ws;
  }

  // ---- CPUID ----

  /** The assignments DetectCPUID makes: the hypervisor bit of leaf 1, then
      the three vendor substring tests of leaf 0x40000000. */
  function CpuidWrites(leaf1: Call<Registers>, vendorLeaf: Call<Registers>): seq<Entry> {
    match leaf1
    case Threw => []
    case Returned(r) =>
      match vendorLeaf
      case Threw => [Entry(HypervisorPresent, HypervisorBit(r.ecx))]
      case Returned(v) =>
        var id := VendorId(v.ebx, v.ecx, v.edx);
        [Entry(HypervisorPresent, HypervisorBit(r.ecx)),
         Entry(VMwareVendorId, Contains(id, "VMware")),
         Entry(VBoxVendorId, Contains(id, "VBoxVBox")),
         Entry(KvmVendorId, Contains(id, "KVMKVMKVM"))]
  }

  /** The hypervisor key is bit 31 of leaf 1's ECX and survives a failing
      vendor leaf; the vendor keys are recorded only when both leaves return,
      and then they are the three substring tests. */
  lemma CpuidWritesSpec(leaf1: Call<Registers>, vendorLeaf: Call<Registers>)
    ensures var e := Recorded(CpuidWrites(leaf1, vendorLeaf));
      && (HypervisorPresent in e <==> leaf1.Returned?)
      && (leaf1.Returned? ==> e[HypervisorPresent] == (leaf1.value.ecx >= 0x8000_0000))
      && (VMwareVendorId in e <==> leaf1.Returned? && vendorLeaf.Returned?)
      && (VBoxVendorId in e <==> leaf1.Returned? && vendorLeaf.Returned?)
      && (KvmVendorId in e <==> leaf1.Returned? && vendorLeaf.Returned?)
      && (leaf1.Returned? && vendorLeaf.Returned? ==>
            var id := VendorId(vendorLeaf.value.ebx, vendorLeaf.value.ecx, vendorLeaf.value.edx);
            && e[VMwareVendorId] == Contains(id, "VMware")
            && e[VBoxVendorId] == Contains(id, "VBoxVBox")
            && e[KvmVendorId] == Contains(id, "KVMKVMKVM"))
      && (leaf1.Returned? && vendorLeaf.Threw? ==> e.Keys == {HypervisorPresent})
  {
    var ws := CpuidWrites(leaf1, vendorLeaf);
    if leaf1.Returned? {
      HypervisorBitIsTopBit(leaf1.value.ecx);
      RecordedShort(ws);
    }
  }

  /** Under VMware the VMware vendor key is raised, whatever leaf 1 returned. */
  lemma VMwareSignatureDetected(leaf1: Registers)
    ensures var e := Recorded(CpuidWrites(Returned(leaf1), Returned(VMWARE_SIGNATURE)));
      VMwareVendorId in e && e[VMwareVendorId]
  {
    CpuidWritesSpec(Returned(leaf1), Returned(VMWARE_SIGNATURE));
    VMwareSignatureDecodes();
    assert StartsWith("VMwareVMware", "VMware");
  }

  /** Under VirtualBox the VBox vendor key is raised. */
  lemma VBoxSignatureDetected(leaf1: Registers)
    ensures var e := Recorded(CpuidWrites(Returned(leaf1), Returned(VBOX_SIGNATURE)));
      VBoxVendorId in e && e[VBoxVendorId]
  {
    CpuidWritesSpec(Returned(leaf1), Returned(VBOX_SIGNATURE));
    VBoxSignatureDecodes();
    assert StartsWith("VBoxVBoxVBox", "VBoxVBox");
  }

  /** Under KVM the KVM vendor key is raised. */
  lemma KvmSignatureDetected(leaf1: Registers)
    ensures var e := Recorded(CpuidWrites(Returned(leaf1), Returned(KVM_SIGNATURE)));
      KvmVendorId in e && e[KvmVendorId]
  {
    CpuidWritesSpec(Returned(leaf1), Returned(KVM_SIGNATURE));
    KvmSignatureDecodes();
    assert StartsWith("KVMKVMKVM\0\0\0", "KVMKVMKVM");
  }

  // ---- VMware backdoor port ----

  const VMWARE_PORT := 0x5658
  const VMWARE_MAGIC: bv32 := 0x564D_5868  // 'VMXh'

  /** The backdoor answers: the magic number written to the port is read back;
      a failing port access records false. */
  function PortWrites(write: Call<()>, read: Call<bv32>): seq<Entry> {
    if write.Threw? || read.Threw? then [Entry(VMwarePort, false)]
    else [Entry(VMwarePort, read.value == VMWARE_MAGIC)]
  }

  /** The port key is always recorded, true exactly when both port accesses
      return and the read-back is the magic number. */
  lemma PortWritesSpec(write: Call<()>, read: Call<bv32>)
    ensures var e := Recorded(PortWrites(write, read));
      && e.Keys == {VMwarePort}
      && (e[VMwarePort] <==> write.Returned? && read == Returned(VMWARE_MAGIC))
  {
    RecordedShort(PortWrites(write, read));
  }

  // ---- Debugger ----

  /** The debug address registers Dr0..Dr3 of the thread context. */
  datatype DebugRegisters = DebugRegisters(dr0: nat, dr1: nat, dr2: nat, dr3: nat)

  predicate BreakpointSet(ctx: DebugRegisters) {
    ctx.dr0 != 0 || ctx.dr1 != 0 || ctx.dr2 != 0 || ctx.dr3 != 0
  }

  /** `threadContext` is `None` when GetThreadContext reports failure. */
  function DebuggerWrites(debuggerPresent: Call<bool>, threadContext: Call<Option<DebugRegisters>>): seq<Entry> {
    match debuggerPresent
    case Threw => []
    case Returned(d) =>
      match threadContext
      case Returned(Some(ctx)) => [Entry(DebuggerPresent, d), Entry(HardwareBreakpoints, BreakpointSet(ctx))]
      case _ => [Entry(DebuggerPresent, d)]
  }

  /** The debugger key is recorded when IsDebuggerPresent returns; the
      breakpoint key only when the context was read as well, and is then true
      exactly when one of Dr0..Dr3 is non-zero. */
  lemma DebuggerWritesSpec(debuggerPresent: Call<bool>, threadContext: Call<Option<DebugRegisters>>)
    ensures var e := Recorded(DebuggerWrites(debuggerPresent, threadContext));
      && (DebuggerPresent in e <==> debuggerPresent.Returned?)
      && (debuggerPresent.Returned? ==> e[DebuggerPresent] == debuggerPresent.value)
      && (HardwareBreakpoints in e <==> debuggerPresent.Returned? && threadContext.Returned? && threadContext.value.Some?)
      && (HardwareBreakpoints in e ==>
            var ctx := threadContext.value.value;
            e[HardwareBreakpoints] <==> exists r :: r in [ctx.dr0, ctx.dr1, ctx.dr2, ctx.dr3] && r != 0)
  {
    if debuggerPresent.Returned? {
      RecordedShort(DebuggerWrites(debuggerPresent, threadContext));
    }
    if debuggerPresent.Returned? && threadContext.Returned? && threadContext.value.Some? {
      var ctx := threadContext.value.value;
      var regs := [ctx.dr0, ctx.dr1, ctx.dr2, ctx.dr3];
      if BreakpointSet(ctx) {
        if ctx.dr0 != 0 { assert regs[0] in regs; }
        else if ctx.dr1 != 0 { assert regs[1] in regs; }
        else if ctx.dr2 != 0 { assert regs[2] in regs; }
        else { assert regs[3] in regs; }
      }
    }
  }

  // ---- Timing ----

  /** `(end - start) * 1000000.0 / frequency > 1000` in exact arithmetic; a
      zero frequency divides to +Infinity, -Infinity or NaN by the sign of
      the elapsed ticks. */
  predicate TimingIsAnomalous(start: int, end: int, frequency: int) {
    var elapsed := (end - start) as real * 1000000.0;
    if frequency != 0 then elapsed / (frequency as real) > 1000.0 else elapsed > 0.0
  }

  /** Comparing a quotient by a positive divisor is comparing the dividend. */
  lemma DivGreater(x: real, f: real, c: real)
    requires f > 0.0
    ensures x / f > c <==> x > c * f
  {
    var q := x / f;
    assert q * f == x;
    if q > c {
      assert (q - c) * f > 0.0;
    } else {
      assert (c - q) * f >= 0.0;
    }
  }

  /** For a positive frequency the rule says: more than a millisecond's worth
      of ticks elapsed. */
  lemma TimingThreshold(start: int, end: int, frequency: int)
    requires frequency > 0
    ensures TimingIsAnomalous(start, end, frequency) <==> (end - start) * 1000 > frequency
  {
    DivGreater((end - start) as real * 1000000.0, frequency as real, 1000.0);
    assert ((end - start) * 1000) as real == (end - start) as real * 1000.0;
  }

  function TimingWrites(frequency: Call<int>, start: Call<int>, end: Call<int>): seq<Entry> {
    if frequency.Returned? && start.Returned? && end.Returned? then
      [Entry(TimingAnomaly, TimingIsAnomalous(start.value, end.value, frequency.value))]
    else
      []
  }

  /** The timing key is recorded exactly when the three counter reads return;
      with a positive frequency it says that more than a millisecond passed. */
  lemma TimingWritesSpec(frequency: Call<int>, start: Call<int>, end: Call<int>)
    ensures var e := Recorded(TimingWrites(frequency, start, end));
      && (e.Keys == if frequency.Returned? && start.Returned? && end.Returned? then {TimingAnomaly} else {})
      && (TimingAnomaly in e && frequency.value > 0 ==>
            (e[TimingAnomaly] <==> (end.value - start.value) * 1000 > frequency.value))
  {
    if frequency.Returned? && start.Returned? && end.Returned? {
      RecordedShort(TimingWrites(frequency, start, end));
      if frequency.value > 0 {
        TimingThreshold(start.value, end.value, frequency.value);
      }
    }
  }

  // ---- Resolution and input ----

  datatype Point = Point(x: int, y: int)

  predicate CommonVmResolutionRule(width: int, height: int) {
    (width == 800 && height == 600) || (width == 1024 && height == 768)
  }

  predicate StandardVmResolutionRule(width: int, height: int) {
    (width == 1024 && height == 768) || (width == 800 && height == 600)
  }

  predicate LowResolutionRule(width: int, height: int) {
    width <= 1024 || height <= 768
  }

  /** The two probes' resolution rules agree, and a standard VM resolution is
      a low resolution. */
  lemma ResolutionRulesAgree(width: int, height: int)
    ensures StandardVmResolutionRule(width, height) == CommonVmResolutionRule(width, height)
    ensures StandardVmResolutionRule(width, height) ==> LowResolutionRule(width, height)
    ensures StandardVmResolutionRule(width, height) <==> (width, height) in [(800, 600), (1024, 768)]
  {
  }

  function InputWrites(width: Call<int>, height: Call<int>, before: Call<Point>, after: Call<Point>): seq<Entry> {
    if width.Threw? || height.Threw? then []
    else
      if before.Threw? || after.Threw? then [Entry(CommonVmResolution, CommonVmResolutionRule(width.value, height.value))]
      else [Entry(CommonVmResolution, CommonVmResolutionRule(width.value, height.value)),
            Entry(NoMouseMovement, before.value == after.value)]
  }

  function ScreenWrites(width: Call<int>, height: Call<int>): seq<Entry> {
    if width.Threw? || height.Threw? then []
    else
      [Entry(LowResolution, LowResolutionRule(width.value, height.value)),
       Entry(StandardVmResolution, StandardVmResolutionRule(width.value, height.value))]
  }

  /** The cursor key is recorded only when the metrics and both cursor reads
      return, and is true exactly when the cursor stayed put. */
  lemma InputWritesSpec(width: Call<int>, height: Call<int>, before: Call<Point>, after: Call<Point>)
    ensures var e := Recorded(InputWrites(width, height, before, after));
      && (CommonVmResolution in e <==> width.Returned? && height.Returned?)
      && (NoMouseMovement in e <==> width.Returned? && height.Returned? && before.Returned? && after.Returned?)
      && (NoMouseMovement in e ==> (e[NoMouseMovement] <==> before.value == after.value))
  {
    if width.Returned? && height.Returned? {
      RecordedShort(InputWrites(width, height, before, after));
    }
  }

  /** Read with the same metrics, the input and the screen probes give the
      same verdict on VM resolutions, and that verdict implies a low resolution. */
  lemma SameMetricsSameVerdict(width: Call<int>, height: Call<int>, before: Call<Point>, after: Call<Point>)
    requires width.Returned? && height.Returned?
    ensures var i := Recorded(InputWrites(width, height, before, after));
      var s := Recorded(ScreenWrites(width, height));
      && CommonVmResolution in i && StandardVmResolution in s && LowResolution in s
      && i[CommonVmResolution] == s[StandardVmResolution]
      && (s[StandardVmResolution] ==> s[LowResolution])
  {
    ResolutionRulesAgree(width.value, height.value);
    RecordedShort(InputWrites(width, height, before, after));
    RecordedShort(ScreenWrites(width, height));
  }

  // ---- Processes ----

  const SUSPICIOUS_PROCESSES := [
    "vmtoolsd", "vmwaretray", "vmwareuser", "VGAuthService",
    "vmacthlp", "vboxservice", "vboxtray", "wireshark",
    "fiddler", "procmon", "filemon", "regmon", "processhacker",
    "x64dbg", "ollydbg", "ida", "ida64", "immunity debugger"
  ]

  /** The assignments the inner loop makes for one lower-cased process name
      against the first entries of the list. */
  function NameWrites(lower: string, list: seq<string>): seq<Entry>
    decreases |list|
  {
    if list == [] then []
    else
      var last := list[|list| - 1];
      NameWrites(lower, list[..|list| - 1]) + (if Contains(lower, last) then [Entry(SuspiciousProcess(last), true)] else [])
  }

  /** The assignments DetectSuspiciousProcesses makes for the process names it
      read (a failure while enumerating ends the probe after the names read
      so far). */
  function ProcessWrites(names: seq<string>): seq<Entry>
    decreases |names|
  {
    if names == [] then []
    else ProcessWrites(names[..|names| - 1]) + NameWrites(ToLower(names[|names| - 1]), SUSPICIOUS_PROCESSES)
  }

  /** One name's assignments are `true` flags for exactly the list entries it contains. */
  lemma {:induction false} NameWritesSpec(lower: string, list: seq<string>)
    ensures forall w :: w in NameWrites(lower, list) ==>
      w.value && w.key.SuspiciousProcess? && w.key.process in list && Contains(lower, w.key.process)
    ensures forall s :: s in list && Contains(lower, s) ==> Entry(SuspiciousProcess(s), true) in NameWrites(lower, list)
    decreases |list|
  {
    if list != [] {
      var front := list[..|list| - 1];
      NameWritesSpec(lower, front);
      assert forall s :: s in front ==> s in list;
      forall s | s in list ensures s in front || s == list[|list| - 1] {
        var i :| 0 <= i < |list| && list[i] == s;
        if i < |list| - 1 {
          assert front[i] == s;
        }
      }
    }
  }

  /** All the probe's assignments are `true` flags for list entries; a list
      entry is flagged exactly when some process name, lower-cased, contains it. */
  lemma {:induction false} ProcessWritesSpec(names: seq<string>)
    ensures forall w :: w in ProcessWrites(names) ==>
      w.value && w.key.SuspiciousProcess? && w.key.process in SUSPICIOUS_PROCESSES
    ensures forall s :: SuspiciousProcess(s) in WrittenKeys(ProcessWrites(names)) <==>
      s in SUSPICIOUS_PROCESSES && exists p :: p in names && Contains(ToLower(p), s)
    decreases |names|
  {
    if names != [] {
      var front := names[..|names| - 1];
      var last := names[|names| - 1];
      ProcessWritesSpec(front);
      NameWritesSpec(ToLower(last), SUSPICIOUS_PROCESSES);
      var ws := ProcessWrites(names);
      forall s ensures SuspiciousProcess(s) in WrittenKeys(ws) <==>
        s in SUSPICIOUS_PROCESSES && exists p :: p in names && Contains(ToLower(p), s)
      {
        if s in SUSPICIOUS_PROCESSES && exists p :: p in names && Contains(ToLower(p), s) {
          var p :| p in names && Contains(ToLower(p), s);
          var i :| 0 <= i < |names| && names[i] == p;
          if i < |names| - 1 {
            assert front[i] == p;
            var w :| w in ProcessWrites(front) && w.key == SuspiciousProcess(s);
            assert w in ws;
          } else {
            assert Entry(SuspiciousProcess(s), true) in ws;
          }
        }
        if SuspiciousProcess(s) in WrittenKeys(ws) {
          var w :| w in ws && w.key == SuspiciousProcess(s);
          if w in ProcessWrites(front) {
            var p :| p in front && Contains(ToLower(p), s);
            assert p in names;
          } else {
            assert w in NameWrites(ToLower(last), SUSPICIOUS_PROCESSES);
          }
        }
      }
    }
  }

  /** Dynamic process keys are only ever true and only for names on the list;
      a name on the list is recorded exactly when some process name,
      lower-cased, contains it. */
  lemma ProcessEntriesSpec(names: seq<string>)
    ensures var e := Recorded(ProcessWrites(names));
      && (forall k :: k in e ==> k.SuspiciousProcess? && k.process in SUSPICIOUS_PROCESSES && e[k])
      && (forall s :: SuspiciousProcess(s) in e <==>
            s in SUSPICIOUS_PROCESSES && exists p :: p in names && Contains(ToLower(p), s))
  {
    ProcessWritesSpec(names);
    RecordedSpec(ProcessWrites(names));
  }

  /** A string without capitals never contains "VGAuthService". */
  lemma NoCapitalsNoVGAuth(lower: string)
    requires forall i :: 0 <= i < |lower| ==> !IsUpperLetter(lower[i])
    ensures !Contains(lower, "VGAuthService")
  {
    var sub := "VGAuthService";
    forall i ensures !OccursAt(lower, sub, i) {
      if 0 <= i && i + |sub| <= |lower| {
        assert !IsUpperLetter(lower[i..i + |sub|][0]);
      }
    }
    ContainsIffOccurs(lower, sub);
  }

  /** "VGAuthService" keeps its capitals on the list while process names are
      lower-cased, so its key is never recorded. */
  lemma VGAuthServiceNeverFlagged(names: seq<string>)
    ensures SuspiciousProcess("VGAuthService") !in Recorded(ProcessWrites(names))
  {
    ProcessEntriesSpec(names);
    forall p | p in names ensures !Contains(ToLower(p), "VGAuthService") {
      NoCapitalsNoVGAuth(ToLower(p));
    }
  }

  // ---- Mutexes ----

  const VM_MUTEXES := ["VBoxMouse", "VBoxGuest", "VBoxMiniRdDN", "VBoxTrayIPC", "VMwareUser", "VMwareService"]

  /** Win32 ERROR_ALREADY_EXISTS. */
  const ERROR_ALREADY_EXISTS := 183

  /** What CreateMutex returned for a name, and GetLastError right after it. */
  datatype MutexReply = MutexReply(handle: nat, lastError: nat)

  predicate AlreadyExisted(reply: MutexReply) {
    reply.handle != 0 && reply.lastError == ERROR_ALREADY_EXISTS
  }

  /** The assignments DetectVMMutexes makes for the first entries of the
      list; a name whose probe throws is skipped. */
  function MutexWrites(createMutex: string -> Call<MutexReply>, list: seq<string>): seq<Entry>
    decreases |list|
  {
    if list == [] then []
    else
      var last := list[|list| - 1];
      var reply := createMutex(last);
      MutexWrites(createMutex, list[..|list| - 1])
        + (if reply.Returned? && AlreadyExisted(reply.value) then [Entry(MutexFound(last), true)] else [])
  }

  /** The assignments are `true` flags for list entries, made exactly for the
      names whose creation reported an existing mutex. */
  lemma {:induction false} MutexWritesSpec(createMutex: string -> Call<MutexReply>, list: seq<string>)
    ensures forall w :: w in MutexWrites(createMutex, list) ==> w.value && w.key.MutexFound? && w.key.mutex in list
    ensures forall m :: m in list ==>
      (MutexFound(m) in WrittenKeys(MutexWrites(createMutex, list)) <==>
         createMutex(m).Returned? && AlreadyExisted(createMutex(m).value))
    decreases |list|
  {
    if list != [] {
      var front := list[..|list| - 1];
      var ws := MutexWrites(createMutex, list);
      MutexWritesSpec(createMutex, front);
      assert forall m :: m in front ==> m in list;
      forall m | m in list ensures
        MutexFound(m) in WrittenKeys(ws) <==> createMutex(m).Returned? && AlreadyExisted(createMutex(m).value)
      {
        var i :| 0 <= i < |list| && list[i] == m;
        if i < |list| - 1 {
          assert front[i] == m;
        }
        if MutexFound(m) in WrittenKeys(ws) {
          var w :| w in ws && w.key == MutexFound(m);
          if w in MutexWrites(createMutex, front) {
            assert MutexFound(m) in WrittenKeys(MutexWrites(createMutex, front));
          }
        }
        if m in front && createMutex(m).Returned? && AlreadyExisted(createMutex(m).value) {
          var w :| w in MutexWrites(createMutex, front) && w.key == MutexFound(m);
          assert w in ws;
        }
      }
    }
  }

  /** Dynamic mutex keys are only ever true, only for names on the list, and
      exactly for the names whose creation reported an existing mutex. */
  lemma MutexEntriesSpec(createMutex: string -> Call<MutexReply>)
    ensures var e := Recorded(MutexWrites(createMutex, VM_MUTEXES));
      && (forall k :: k in e ==> k.MutexFound? && k.mutex in VM_MUTEXES && e[k])
      && (forall m :: m in VM_MUTEXES ==>
            (MutexFound(m) in e <==> createMutex(m).Returned? && AlreadyExisted(createMutex(m).value)))
  {
    MutexWritesSpec(createMutex, VM_MUTEXES);
    RecordedSpec(MutexWrites(createMutex, VM_MUTEXES));
  }

  // ---- Performance ----

  datatype SystemInfo = SystemInfo(numberOfProcessors: nat, processorType: nat)

  function PerformanceWrites(systemInfo: Call<SystemInfo>, tickCount: Call<nat>): seq<Entry> {
    match systemInfo
    case Threw => []
    case Returned(si) =>
      match tickCount
      case Threw => [Entry(LowCpuCount, si.numberOfProcessors <= 2), Entry(SuspiciousCpuType, si.processorType != 586)]
      case Returned(t) =>
        [Entry(LowCpuCount, si.numberOfProcessors <= 2), Entry(SuspiciousCpuType, si.processorType != 586),
         Entry(ShortUptime, t < 300000)]
  }

  /** The processor keys come with the system information, the uptime key
      additionally needs the tick count: under five minutes is suspicious. */
  lemma PerformanceWritesSpec(systemInfo: Call<SystemInfo>, tickCount: Call<nat>)
    ensures var e := Recorded(PerformanceWrites(systemInfo, tickCount));
      && (LowCpuCount in e <==> systemInfo.Returned?)
      && (SuspiciousCpuType in e <==> systemInfo.Returned?)
      && (ShortUptime in e <==> systemInfo.Returned? && tickCount.Returned?)
      && (systemInfo.Returned? ==>
            && e[LowCpuCount] == (systemInfo.value.numberOfProcessors <= 2)
            && e[SuspiciousCpuType] == (systemInfo.value.processorType != 586))
      && (ShortUptime in e ==> (e[ShortUptime] <==> tickCount.value < 5 * 60 * 1000))
  {
    if systemInfo.Returned? {
      RecordedShort(PerformanceWrites(systemInfo, tickCount));
    }
  }

  // ---- The detector ----

  /** Everything the native calls and the process list deliver, per probe. */
  datatype NativeReadings = NativeReadings(
    cpuidLeaf1: Call<Registers>,
    cpuidVendorLeaf: Call<Registers>,
    portWrite: Call<()>,
    portRead: Call<bv32>,
    debuggerPresent: Call<bool>,
    threadContext: Call<Option<DebugRegisters>>,
    frequency: Call<int>,
    counterStart: Call<int>,
    counterEnd: Call<int>,
    inputWidth: Call<int>,
    inputHeight: Call<int>,
    cursorBefore: Call<Point>,
    cursorAfter: Call<Point>,
    processNames: seq<string>,
    screenWidth: Call<int>,
    screenHeight: Call<int>,
    createMutex: string -> Call<MutexReply>,
    systemInfo: Call<SystemInfo>,
    tickCount: Call<nat>)

  /** The assignments probe `i` (1 to 9, in running order) makes. */
  function ProbeWrites(n: NativeReadings, i: nat): seq<Entry> {
    if i == 1 then CpuidWrites(n.cpuidLeaf1, n.cpuidVendorLeaf)
    else if i == 2 then PortWrites(n.portWrite, n.portRead)
    else if i == 3 then DebuggerWrites(n.debuggerPresent, n.threadContext)
    else if i == 4 then TimingWrites(n.frequency, n.counterStart, n.counterEnd)
    else if i == 5 then InputWrites(n.inputWidth, n.inputHeight, n.cursorBefore, n.cursorAfter)
    else if i == 6 then ProcessWrites(n.processNames)
    else if i == 7 then ScreenWrites(n.screenWidth, n.screenHeight)
    else if i == 8 then MutexWrites(n.createMutex, VM_MUTEXES)
    else if i == 9 then PerformanceWrites(n.systemInfo, n.tickCount)
    else []
  }

  /** The probe that owns a key. */
  function ProbeOf(k: Key): (i: nat)
    ensures 1 <= i <= 9
  {
    match k
    case HypervisorPresent | VMwareVendorId | VBoxVendorId | KvmVendorId => 1
    case VMwarePort => 2
    case DebuggerPresent | HardwareBreakpoints => 3
    case TimingAnomaly => 4
    case CommonVmResolution | NoMouseMovement => 5
    case SuspiciousProcess(_) => 6
    case LowResolution | StandardVmResolution => 7
    case MutexFound(_) => 8
    case LowCpuCount | SuspiciousCpuType | ShortUptime => 9
  }

  /** The probes of a detector run, by running position. */
  function Probes(n: NativeReadings): nat -> seq<Entry> {
    (i: nat) => ProbeWrites(n, i)
  }

  /** The dictionary after the first `i` probes of `probe`, run in order on an empty dictionary. */
  function RunProbes(probe: nat -> seq<Entry>, i: nat): map<Key, bool>
    decreases i
  {
    if i == 0 then map[] else Assign(RunProbes(probe, i - 1), probe(i))
  }

  /** The finished dictionary: the nine probes' assignments, in running order. */
  function Report(n: NativeReadings): map<Key, bool> {
    RunProbes(Probes(n), 9)
  }

  /** The probes with fixed keys assign only keys they own. */
  lemma FixedProbeKeysOwned(n: NativeReadings, i: nat)
    requires i != 6 && i != 8
    ensures forall w :: w in ProbeWrites(n, i) ==> ProbeOf(w.key) == i
  {
  }

  /** Each probe assigns only keys it owns. */
  lemma ProbeKeysOwned(n: NativeReadings, i: nat)
    ensures forall w :: w in ProbeWrites(n, i) ==> ProbeOf(w.key) == i
  {
    if i == 6 {
      ProcessWritesSpec(n.processNames);
    } else if i == 8 {
      MutexWritesSpec(n.createMutex, VM_MUTEXES);
    } else {
      FixedProbeKeysOwned(n, i);
    }
  }

  /** Every probe assigns only keys it owns. */
  ghost predicate OwnKeysOnly(probe: nat -> seq<Entry>) {
    forall i, w :: w in probe(i) ==> ProbeOf(w.key) == i
  }

  /** Assignments to one probe's keys change only that probe's entries. */
  lemma AssignOwned(m: map<Key, bool>, ws: seq<Entry>, i: nat)
    requires forall w :: w in ws ==> ProbeOf(w.key) == i
    ensures forall k :: ProbeOf(k) != i ==> (k in Assign(m, ws) <==> k in m)
    ensures forall k :: ProbeOf(k) != i && k in m ==> Assign(m, ws)[k] == m[k]
    ensures forall k :: ProbeOf(k) == i ==> (k in Assign(m, ws) <==> k in m || k in Recorded(ws))
    ensures forall k :: k in Recorded(ws) ==> k in Assign(m, ws) && Assign(m, ws)[k] == Recorded(ws)[k]
  {
    AssignIsUnion(m, ws);
    RecordedSpec(ws);
  }

  /** When probes keep to their own keys, after the first `i` probes each key
      holds what its own probe recorded. */
  lemma {:induction false} RunProbesByOwner(probe: nat -> seq<Entry>, i: nat)
    requires OwnKeysOnly(probe)
    ensures forall k :: k in RunProbes(probe, i) <==> ProbeOf(k) <= i && k in Recorded(probe(ProbeOf(k)))
    ensures forall k :: k in RunProbes(probe, i) ==> RunProbes(probe, i)[k] == Recorded(probe(ProbeOf(k)))[k]
    decreases i
  {
    if i > 0 {
      RunProbesByOwner(probe, i - 1);
      AssignOwned(RunProbes(probe, i - 1), probe(i), i);
    }
  }

  /** Probes are isolated: every key of the report holds what its own probe
      recorded, whatever the other probes' calls did, and a key is missing
      only when its own probe did not record it. */
  lemma ReportByProbe(n: NativeReadings)
    ensures forall k :: k in Report(n) <==> k in Recorded(ProbeWrites(n, ProbeOf(k)))
    ensures forall k :: k in Report(n) ==> Report(n)[k] == Recorded(ProbeWrites(n, ProbeOf(k)))[k]
  {
    forall i ensures forall w :: w in Probes(n)(i) ==> ProbeOf(w.key) == i {
      ProbeKeysOwned(n, i);
    }
    RunProbesByOwner(Probes(n), 9);
  }

  /** The port probe's key is in every report. */
  lemma PortAlwaysReported(n: NativeReadings)
    ensures VMwarePort in Report(n)
  {
    ReportByProbe(n);
    PortWritesSpec(n.portWrite, n.portRead);
    assert ProbeWrites(n, ProbeOf(VMwarePort)) == PortWrites(n.portWrite, n.portRead);
  }

  /** One key of the report holds what its own probe recorded. */
  lemma ReportKey(n: NativeReadings, k: Key)
    ensures k in Report(n) <==> k in Recorded(ProbeWrites(n, ProbeOf(k)))
    ensures k in Report(n) ==> Report(n)[k] == Recorded(ProbeWrites(n, ProbeOf(k)))[k]
  {
    ReportByProbe(n);
  }

  /** Process keys in the report are only ever true, and only for names on the list. */
  lemma ReportProcessKeys(n: NativeReadings)
    ensures forall k :: k in Report(n) && k.SuspiciousProcess? ==> Report(n)[k] && k.process in SUSPICIOUS_PROCESSES
  {
    forall k | k in Report(n) && k.SuspiciousProcess? ensures Report(n)[k] && k.process in SUSPICIOUS_PROCESSES {
      ReportKey(n, k);
      assert ProbeWrites(n, ProbeOf(k)) == ProcessWrites(n.processNames);
      ProcessEntriesSpec(n.processNames);
    }
  }

  /** Mutex keys in the report are only ever true, and only for names on the list. */
  lemma ReportMutexKeys(n: NativeReadings)
    ensures forall k :: k in Report(n) && k.MutexFound? ==> Report(n)[k] && k.mutex in VM_MUTEXES
  {
    forall k | k in Report(n) && k.MutexFound? ensures Report(n)[k] && k.mutex in VM_MUTEXES {
      ReportKey(n, k);
      assert ProbeWrites(n, ProbeOf(k)) == MutexWrites(n.createMutex, VM_MUTEXES);
      MutexEntriesSpec(n.createMutex);
    }
  }

  /** The shared `Dictionary<string, bool>` the probes fill. */
  class ResultDictionary {
    var entries: map<Key, bool>

    constructor()
      ensures entries == map[]
    {
      entries := map[];
    }

    /** The indexer assignment `results[key] = value`. */
    method Set(key: Key, value: bool)
      modifies this
      ensures entries == old(entries)[key := value]
    {
      entries := entries[key := value];
    }
  }

  method DetectCPUID(results: ResultDictionary, leaf1: Call<Registers>, vendorLeaf: Call<Registers>)
    modifies results
    ensures results.entries == Assign(old(results.entries), CpuidWrites(leaf1, vendorLeaf))
  {
    if leaf1.Threw? {
      return;
    }
    var present := HypervisorBit(leaf1.value.ecx);
    results.Set(HypervisorPresent, present);
    ghost var log := [Entry(HypervisorPresent, present)];
    assert results.entries == Assign(old(results.entries), log);
    if vendorLeaf.Threw? {
      return;
    }
    var r := vendorLeaf.value;
    var vendorId := VendorId(r.ebx, r.ecx, r.edx);
    results.Set(VMwareVendorId, Contains(vendorId, "VMware"));
    log := log + [Entry(VMwareVendorId, Contains(vendorId, "VMware"))];
    assert results.entries == Assign(old(results.entries), log);
    results.Set(VBoxVendorId, Contains(vendorId, "VBoxVBox"));
    log := log + [Entry(VBoxVendorId, Contains(vendorId, "VBoxVBox"))];
    assert results.entries == Assign(old(results.entries), log);
    results.Set(KvmVendorId, Contains(vendorId, "KVMKVMKVM"));
    log := log + [Entry(KvmVendorId, Contains(vendorId, "KVMKVMKVM"))];
    assert results.entries == Assign(old(results.entries), log);
    assert log == CpuidWrites(leaf1, vendorLeaf);
  }

  method DetectVMwarePort(results: ResultDictionary, write: Call<()>, read: Call<bv32>)
    modifies results
    ensures results.entries == Assign(old(results.entries), PortWrites(write, read))
  {
    if write.Threw? || read.Threw? {
      results.Set(VMwarePort, false);
    } else {
      results.Set(VMwarePort, read.value == VMWARE_MAGIC);
    }
  }

  method DetectDebugger(results: ResultDictionary, debuggerPresent: Call<bool>, threadContext: Call<Option<DebugRegisters>>)
    modifies results
    ensures results.entries == Assign(old(results.entries), DebuggerWrites(debuggerPresent, threadContext))
  {
    if debuggerPresent.Threw? {
      return;
    }
    results.Set(DebuggerPresent, debuggerPresent.value);
    ghost var log := [Entry(DebuggerPresent, debuggerPresent.value)];
    assert results.entries == Assign(old(results.entries), log);
    if threadContext.Returned? && threadContext.value.Some? {
      var ctx := threadContext.value.value;
      var breakpoints := ctx.dr0 != 0 || ctx.dr1 != 0 || ctx.dr2 != 0 || ctx.dr3 != 0;
      results.Set(HardwareBreakpoints, breakpoints);
      log := log + [Entry(HardwareBreakpoints, breakpoints)];
      assert results.entries == Assign(old(results.entries), log);
    }
    assert log == DebuggerWrites(debuggerPresent, threadContext);
  }

  method DetectTimingAnomalies(results: ResultDictionary, frequency: Call<int>, start: Call<int>, end: Call<int>)
    modifies results
    ensures results.entries == Assign(old(results.entries), TimingWrites(frequency, start, end))
  {
    if frequency.Threw? || start.Threw? || end.Threw? {
      return;
    }
    results.Set(TimingAnomaly, TimingIsAnomalous(start.value, end.value, frequency.value));
  }

  method DetectInputAnomalies(results: ResultDictionary, width: Call<int>, height: Call<int>, before: Call<Point>, after: Call<Point>)
    modifies results
    ensures results.entries == Assign(old(results.entries), InputWrites(width, height, before, after))
  {
    if width.Threw? || height.Threw? {
      return;
    }
    var w, h := width.value, height.value;
    var common := (w == 800 && h == 600) || (w == 1024 && h == 768);
    results.Set(CommonVmResolution, common);
    ghost var log := [Entry(CommonVmResolution, common)];
    assert results.entries == Assign(old(results.entries), log);
    if before.Threw? || after.Threw? {
      return;
    }
    var still := before.value.x == after.value.x && before.value.y == after.value.y;
    results.Set(NoMouseMovement, still);
    log := log + [Entry(NoMouseMovement, still)];
    assert results.entries == Assign(old(results.entries), log);
    assert log == InputWrites(width, height, before, after);
  }

  /** The inner loop of DetectSuspiciousProcesses: flags every entry of
      `list` (the suspicious process list) the lower-cased name contains. */
  method FlagProcess(results: ResultDictionary, lower: string, list: seq<string>)
    modifies results
    ensures results.entries == Assign(old(results.entries), NameWrites(lower, list))
  {
    var j := 0;
    while j < |list|
      invariant 0 <= j <= |list|
      invariant results.entries == Assign(old(results.entries), NameWrites(lower, list[..j]))
    {
      var suspicious := list[j];
      ghost var flags := NameWrites(lower, list[..j]);
      assert list[..j + 1][..j] == list[..j];
      if Contains(lower, suspicious) {
        results.Set(SuspiciousProcess(suspicious), true);
        assert (flags + [Entry(SuspiciousProcess(suspicious), true)])[..|flags|] == flags;
      } else {
        assert flags + [] == flags;
      }
      j := j + 1;
    }
    assert list[..j] == list;
  }

  method DetectSuspiciousProcesses(results: ResultDictionary, processNames: seq<string>)
    modifies results
    ensures results.entries == Assign(old(results.entries), ProcessWrites(processNames))
  {
    var i := 0;
    while i < |processNames|
      invariant 0 <= i <= |processNames|
      invariant results.entries == Assign(old(results.entries), ProcessWrites(processNames[..i]))
    {
      var lower := ToLower(processNames[i]);
      FlagProcess(results, lower, SUSPICIOUS_PROCESSES);
      assert processNames[..i + 1][..i] == processNames[..i];
      AssignAppend(old(results.entries), ProcessWrites(processNames[..i]), NameWrites(lower, SUSPICIOUS_PROCESSES));
      i := i + 1;
    }
    assert processNames[..i] == processNames;
  }

  method DetectScreenAnomalies(results: ResultDictionary, width: Call<int>, height: Call<int>)
    modifies results
    ensures results.entries == Assign(old(results.entries), ScreenWrites(width, height))
  {
    if width.Threw? || height.Threw? {
      return;
    }
    var w, h := width.value, height.value;
    var low := w <= 1024 || h <= 768;
    var standard := (w == 1024 && h == 768) || (w == 800 && h == 600);
    results.Set(LowResolution, low);
    ghost var log := [Entry(LowResolution, low)];
    assert results.entries == Assign(old(results.entries), log);
    results.Set(StandardVmResolution, standard);
    log := log + [Entry(StandardVmResolution, standard)];
    assert results.entries == Assign(old(results.entries), log);
    assert log == ScreenWrites(width, height);
  }

  method DetectVMMutexes(results: ResultDictionary, createMutex: string -> Call<MutexReply>)
    modifies results
    ensures results.entries == Assign(old(results.entries), MutexWrites(createMutex, VM_MUTEXES))
  {
    var i := 0;
    while i < |VM_MUTEXES|
      invariant 0 <= i <= |VM_MUTEXES|
      invariant results.entries == Assign(old(results.entries), MutexWrites(createMutex, VM_MUTEXES[..i]))
    {
      var mutex := VM_MUTEXES[i];
      ghost var log := MutexWrites(createMutex, VM_MUTEXES[..i]);
      assert VM_MUTEXES[..i + 1][..i] == VM_MUTEXES[..i];
      var reply := createMutex(mutex);
      if reply.Returned? && reply.value.handle != 0 && reply.value.lastError == ERROR_ALREADY_EXISTS {
        results.Set(MutexFound(mutex), true);
        assert (log + [Entry(MutexFound(mutex), true)])[..|log|] == log;
      } else {
        assert log + [] == log;
      }
      i := i + 1;
    }
    assert VM_MUTEXES[..i] == VM_MUTEXES;
  }

  method DetectPerformanceAnomalies(results: ResultDictionary, systemInfo: Call<SystemInfo>, tickCount: Call<nat>)
    modifies results
    ensures results.entries == Assign(old(results.entries), PerformanceWrites(systemInfo, tickCount))
  {
    if systemInfo.Threw? {
      return;
    }
    var si := systemInfo.value;
    results.Set(LowCpuCount, si.numberOfProcessors <= 2);
    ghost var log := [Entry(LowCpuCount, si.numberOfProcessors <= 2)];
    assert results.entries == Assign(old(results.entries), log);
    results.Set(SuspiciousCpuType, si.processorType != 586);
    log := log + [Entry(SuspiciousCpuType, si.processorType != 586)];
    assert results.entries == Assign(old(results.entries), log);
    if tickCount.Threw? {
      assert log == PerformanceWrites(systemInfo, tickCount);
      return;
    }
    results.Set(ShortUptime, tickCount.value < 300000);
    log := log + [Entry(ShortUptime, tickCount.value < 300000)];
    assert results.entries == Assign(old(results.entries), log);
    assert log == PerformanceWrites(systemInfo, tickCount);
  }

  /** DetectVirtualization: a new dictionary, filled by the nine probes in order. */
  method DetectVirtualization(n: NativeReadings) returns (results: ResultDictionary)
    ensures fresh(results)
    ensures results.entries == Report(n)
  {
    results := new ResultDictionary();
    DetectCPUID(results, n.cpuidLeaf1, n.cpuidVendorLeaf);
    assert results.entries == RunProbes(Probes(n), 1);
    DetectVMwarePort(results, n.portWrite, n.portRead);
    assert results.entries == RunProbes(Probes(n), 2);
    DetectDebugger(results, n.debuggerPresent, n.threadContext);
    assert results.entries == RunProbes(Probes(n), 3);
    DetectTimingAnomalies(results, n.frequency, n.counterStart, n.counterEnd);
    assert results.entries == RunProbes(Probes(n), 4);
    DetectInputAnomalies(results, n.inputWidth, n.inputHeight, n.cursorBefore, n.cursorAfter);
    assert results.entries == RunProbes(Probes(n), 5);
    DetectSuspiciousProcesses(results, n.processNames);
    assert results.entries == RunProbes(Probes(n), 6);
    DetectScreenAnomalies(results, n.screenWidth, n.screenHeight);
    assert results.entries == RunProbes(Probes(n), 7);
    DetectVMMutexes(results, n.createMutex);
    assert results.entries == RunProbes(Probes(n), 8);
    DetectPerformanceAnomalies(results, n.systemInfo, n.tickCount);
  }
}
