/** Services/SpoofingService.cs, identity mutation: the BIOS strings, the
    machine GUID and the host name, each changed by an ordered sequence of
    registry sets inside one try block. */
module SpoofingService {
  import opened Wrappers
  import opened Text
  import opened RegistryHelper
  import opened Maps

  const BIOS_SUBKEY := "HARDWARE\\DESCRIPTION\\System\\BIOS"
  const MACHINE_GUID_SUBKEY := "SOFTWARE\\Microsoft\\Cryptography"
  const COMPUTER_NAME_SUBKEY := "SYSTEM\\CurrentControlSet\\Control\\ComputerName\\ComputerName"
  const ACTIVE_COMPUTER_NAME_SUBKEY := "SYSTEM\\CurrentControlSet\\Control\\ComputerName\\ActiveComputerName"
  const TCPIP_PARAMETERS_SUBKEY := "SYSTEM\\CurrentControlSet\\Services\\Tcpip\\Parameters"

  const BIOS_KEY_PATH := KeyPath(LocalMachine, BIOS_SUBKEY)
  const MACHINE_GUID_KEY_PATH := KeyPath(LocalMachine, MACHINE_GUID_SUBKEY)
  const COMPUTER_NAME_KEY_PATH := KeyPath(LocalMachine, COMPUTER_NAME_SUBKEY)
  const ACTIVE_COMPUTER_NAME_KEY_PATH := KeyPath(LocalMachine, ACTIVE_COMPUTER_NAME_SUBKEY)
  const TCPIP_PARAMETERS_KEY_PATH := KeyPath(LocalMachine, TCPIP_PARAMETERS_SUBKEY)

  const BIOS_FAILURE := "Failed to spoof BIOS information"
  const MACHINE_GUID_FAILURE := "Failed to change Machine GUID"
  const HOST_NAME_FAILURE := "Failed to change hostname"

  /** One SetRegistryValue call. */
  datatype Write = Write(keyPath: string, valueName: string, value: string)

  /** The seven BIOS fields SpoofBIOS writes, in the order it writes them. */
  const BIOS_PROFILE: seq<Write> := [
    Write(BIOS_KEY_PATH, "SystemManufacturer", "ASUSTeK COMPUTER INC."),
    Write(BIOS_KEY_PATH, "SystemProductName", "ROG STRIX Z590-E GAMING"),
    Write(BIOS_KEY_PATH, "SystemVersion", "Rev 1.xx"),
    Write(BIOS_KEY_PATH, "SystemFamily", "Gaming"),
    Write(BIOS_KEY_PATH, "BaseBoardManufacturer", "ASUSTeK COMPUTER INC."),
    Write(BIOS_KEY_PATH, "BaseBoardProduct", "ROG STRIX Z590-E GAMING"),
    Write(BIOS_KEY_PATH, "BaseBoardVersion", "Rev X.0x")
  ]

  /** The four places ChangeHostName writes the new name, in order. */
  function HostNameWrites(newHostName: string): seq<Write> {
    [ Write(COMPUTER_NAME_KEY_PATH, "ComputerName", newHostName),
      Write(ACTIVE_COMPUTER_NAME_KEY_PATH, "ComputerName", newHostName),
      Write(TCPIP_PARAMETERS_KEY_PATH, "Hostname", newHostName),
      Write(TCPIP_PARAMETERS_KEY_PATH, "NV Hostname", newHostName) ]
  }

  /** The single write of ChangeMachineGuid. */
  function MachineGuidWrites(newGuid: string): seq<Write> {
    [Write(MACHINE_GUID_KEY_PATH, "MachineGuid", newGuid)]
  }

  function Apply(st: Store, w: Write): Effect {
    Put(st, w.keyPath, w.valueName, w.value)
  }

  /** Consecutive sets inside one try block: each runs on the registry the
      previous one left, and the first failing set ends the block (its
      exception propagates); nothing is rolled back. */
  function RunWrites(st: Store, ws: seq<Write>): (e: Effect)
    ensures e.after.faults == st.faults
    decreases |ws|
  {
    if ws == [] then Effect(st, Pass)
    else
      var first := Apply(st, ws[0]);
      if first.outcome.Fail? then first else RunWrites(first.after, ws[1..])
  }

  /** The operation's catch clause: a failure becomes a generic exception
      with the given message and the original as inner cause. */
  function WrapFailure(e: Effect, message: string): Effect {
    match e.outcome
    case Pass => e
    case Fail(err) => Effect(e.after, Fail(Wrapped(message, err)))
  }

  predicate Succeeds(faults: map<Location, Fault>, w: Write) {
    Writable(faults, w.keyPath, w.valueName)
  }

  /** How many leading writes of `ws` succeed under the fault oracle. */
  function Committed(faults: map<Location, Fault>, ws: seq<Write>): (k: nat)
    ensures k <= |ws|
    ensures forall i :: 0 <= i < k ==> Succeeds(faults, ws[i])
    ensures k < |ws| ==> !Succeeds(faults, ws[k])
    decreases |ws|
  {
    if ws == [] || !Succeeds(faults, ws[0]) then 0
    else 1 + Committed(faults, ws[1..])
  }

  /** The entry one write creates, if its key path has a known root. */
  function Entry(w: Write): map<Location, string> {
    match Locate(w.keyPath, w.valueName)
    case Success(l) => map[l := w.value]
    case Failure(_) => map[]
  }

  /** The key one write creates, if its key path has a known root. */
  function EntryKey(w: Write): set<KeyId> {
    match Locate(w.keyPath, w.valueName)
    case Success(l) => {KeyOf(l)}
    case Failure(_) => {}
  }

  /** The entries a sequence of writes leaves, later writes winning. */
  function Written(ws: seq<Write>): map<Location, string>
    decreases |ws|
  {
    if ws == [] then map[] else Entry(ws[0]) + Written(ws[1..])
  }

  /** The keys a sequence of writes creates. */
  function WrittenKeys(ws: seq<Write>): set<KeyId>
    decreases |ws|
  {
    if ws == [] then {} else EntryKey(ws[0]) + WrittenKeys(ws[1..])
  }

  /** A successful set adds its entry and its key. */
  lemma ApplyAdds(st: Store, w: Write)
    requires Succeeds(st.faults, w)
    ensures Apply(st, w) == Effect(Store(st.keys + EntryKey(w), st.values + Entry(w), st.faults), Pass)
  {
    var l := Locate(w.keyPath, w.valueName).value;
    assert st.values[l := w.value] == st.values + map[l := w.value];
  }

  /** A run keeps every value under an existing key. */
  lemma {:induction false} RunWritesConsistent(st: Store, ws: seq<Write>)
    requires Consistent(st)
    ensures Consistent(RunWrites(st, ws).after)
    decreases |ws|
  {
    if ws != [] {
      PutSpec(st, ws[0].keyPath, ws[0].valueName, ws[0].value);
      RunWritesConsistent(Apply(st, ws[0]).after, ws[1..]);
    }
  }

  /** Peeling the first write off a prefix of length k > 0. */
  lemma PrefixTail(ws: seq<Write>, k: nat)
    requires 0 < k <= |ws|
    ensures ws[..k][0] == ws[0] && ws[..k][1..] == ws[1..][..k - 1]
  {
  }

  /** The registry data after a run: the committed writes' entries over the old data. */
  lemma {:induction false} RunWritesValues(st: Store, ws: seq<Write>)
    ensures RunWrites(st, ws).after.values == st.values + Written(ws[..Committed(st.faults, ws)])
    decreases |ws|
  {
    var k := Committed(st.faults, ws);
    if k == 0 {
      assert Written(ws[..0]) == map[];
      assert st.values + map[] == st.values;
    } else {
      var w := ws[0];
      var first := Apply(st, w);
      ApplyAdds(st, w);
      RunWritesValues(first.after, ws[1..]);
      PrefixTail(ws, k);
      UnionAssoc(st.values, Entry(w), Written(ws[1..][..k - 1]));
    }
  }

  /** The keys after a run: the committed writes' keys added to the old keys. */
  lemma {:induction false} RunWritesKeys(st: Store, ws: seq<Write>)
    ensures RunWrites(st, ws).after.keys == st.keys + WrittenKeys(ws[..Committed(st.faults, ws)])
    decreases |ws|
  {
    var k := Committed(st.faults, ws);
    if k == 0 {
      assert ws[..0] == [];
    } else {
      var first := Apply(st, ws[0]);
      ApplyAdds(st, ws[0]);
      RunWritesKeys(first.after, ws[1..]);
      PrefixTail(ws, k);
    }
  }

  /** A run passes when every write succeeds, and otherwise fails with the
      error of the first write that did not. */
  lemma {:induction false} RunWritesOutcome(st: Store, ws: seq<Write>)
    ensures var k := Committed(st.faults, ws);
      RunWrites(st, ws).outcome ==
        if k == |ws| then Pass else Fail(SetError(st.faults, ws[k].keyPath, ws[k].valueName))
    decreases |ws|
  {
    if ws != [] && Succeeds(st.faults, ws[0]) {
      ApplyAdds(st, ws[0]);
      RunWritesOutcome(Apply(st, ws[0]).after, ws[1..]);
      var k := Committed(st.faults, ws);
      if k < |ws| {
        assert ws[1..][k - 1] == ws[k];
      }
    }
  }

  /** Partial application: a run commits exactly its leading successful
      writes, in order, on top of the old registry, and reports the error of
      the first write that failed, if any. */
  lemma RunWritesEffect(st: Store, ws: seq<Write>)
    ensures var k := Committed(st.faults, ws);
      RunWrites(st, ws) ==
        Effect(Store(st.keys + WrittenKeys(ws[..k]), st.values + Written(ws[..k]), st.faults),
               if k == |ws| then Pass else Fail(SetError(st.faults, ws[k].keyPath, ws[k].valueName)))
  {
    RunWritesValues(st, ws);
    RunWritesKeys(st, ws);
    RunWritesOutcome(st, ws);
  }

  /** Running the same writes again on the registry a run left gives the
      same registry and the same outcome: retrying is safe. */
  lemma RunWritesIdempotent(st: Store, ws: seq<Write>)
    ensures RunWrites(RunWrites(st, ws).after, ws) == RunWrites(st, ws)
  {
    var once := RunWrites(st, ws);
    var k := Committed(st.faults, ws);
    RunWritesEffect(st, ws);
    RunWritesEffect(once.after, ws);
    var w := Written(ws[..k]);
    assert (st.values + w) + w == st.values + w;
  }

  /** The entries of a prefix of a sequence of writes are entries of the whole. */
  lemma {:induction false} WrittenPrefixKeys(ws: seq<Write>, k: nat)
    requires k <= |ws|
    ensures Written(ws[..k]).Keys <= Written(ws).Keys
    decreases |ws|
  {
    if k > 0 {
      WrittenPrefixKeys(ws[1..], k - 1);
      PrefixTail(ws, k);
    }
  }

  /** A failed run retried once the faults are gone ends as a clean run
      would: no value is lost, doubled or mixed up by the first attempt. */
  lemma RetryCompletes(st: Store, ws: seq<Write>, fixed: map<Location, Fault>)
    ensures var mid := RunWrites(st, ws).after;
      var retry := RunWrites(mid.(faults := fixed), ws);
      retry.outcome.Pass? ==> retry.after.values == st.values + Written(ws)
  {
    var k := Committed(st.faults, ws);
    var mid := RunWrites(st, ws).after;
    RunWritesValues(st, ws);
    RunWritesValues(mid.(faults := fixed), ws);
    RunWritesOutcome(mid.(faults := fixed), ws);
    if Committed(fixed, ws) == |ws| {
      assert ws[..|ws|] == ws;
      WrittenPrefixKeys(ws, k);
      UnionAbsorb(st.values, Written(ws[..k]), Written(ws));
    }
  }

  /** Where a write lands, for writes whose key path has a known root. */
  function Target(w: Write): (l: Location)
    requires Locate(w.keyPath, w.valueName).Success?
    ensures l.name == w.valueName
  {
    Locate(w.keyPath, w.valueName).value
  }

  /** The value names a sequence of writes uses. */
  function Names(ws: seq<Write>): set<string> {
    set w | w in ws :: w.valueName
  }

  /** Every written entry carries the value name of one of the writes. */
  lemma {:induction false} WrittenNames(ws: seq<Write>)
    ensures forall l :: l in Written(ws) ==> l.name in Names(ws)
    decreases |ws|
  {
    if ws != [] {
      WrittenNames(ws[1..]);
      assert Names(ws[1..]) <= Names(ws) by {
        forall w | w in ws[1..] ensures w in ws { }
      }
      assert ws[0] in ws;
    }
  }

  /** Every write with a known root leaves an entry at its target. */
  lemma {:induction false} WrittenCovers(ws: seq<Write>, i: nat)
    requires i < |ws| && Locate(ws[i].keyPath, ws[i].valueName).Success?
    ensures Target(ws[i]) in Written(ws)
    decreases |ws|
  {
    if i > 0 {
      WrittenCovers(ws[1..], i - 1);
    }
  }

  /** A write whose value name no later write repeats leaves its value. */
  lemma {:induction false} WrittenLast(ws: seq<Write>, i: nat)
    requires i < |ws| && Locate(ws[i].keyPath, ws[i].valueName).Success?
    requires forall j :: i < j < |ws| ==> ws[j].valueName != ws[i].valueName
    ensures Target(ws[i]) in Written(ws) && Written(ws)[Target(ws[i])] == ws[i].value
    decreases |ws|
  {
    if i == 0 {
      WrittenNames(ws[1..]);
      assert ws[0].valueName !in Names(ws[1..]) by {
        forall w | w in ws[1..] ensures w.valueName != ws[0].valueName {
          var j :| 0 <= j < |ws[1..]| && ws[1..][j] == w;
          assert ws[j + 1] == w;
        }
      }
    } else {
      WrittenLast(ws[1..], i - 1);
    }
  }

  /** When every write carries the same value, every written entry holds it. */
  lemma {:induction false} UniformWrittenValues(ws: seq<Write>, v: string)
    requires forall i :: 0 <= i < |ws| ==> ws[i].value == v
    ensures forall l :: l in Written(ws) ==> Written(ws)[l] == v
    decreases |ws|
  {
    if ws != [] {
      UniformWrittenValues(ws[1..], v);
    }
  }

  /** The shared body of the identity operations' try blocks: the writes in
      order, the first failing one ending the block. */
  method SetValues(reg: Registry, ws: seq<Write>) returns (r: Outcome<Error>)
    requires reg.Valid()
    modifies reg
    ensures reg.Valid()
    ensures Effect(reg.State(), r) == RunWrites(old(reg.State()), ws)
  {
    var i := 0;
    while i < |ws|
      invariant 0 <= i <= |ws|
      invariant reg.Valid()
      invariant RunWrites(reg.State(), ws[i..]) == RunWrites(old(reg.State()), ws)
    {
      assert ws[i..][1..] == ws[i + 1..];
      r := SetRegistryValue(reg, ws[i].keyPath, ws[i].valueName, ws[i].value);
      if r.Fail? {
        return;
      }
      i := i + 1;
    }
    return Pass;
  }

  /** SpoofBIOS: the seven profile fields, in order, each written to the BIOS key. */
  method SpoofBIOS(reg: Registry) returns (r: Outcome<Error>)
    requires reg.Valid()
    modifies reg
    ensures reg.Valid()
    ensures Effect(reg.State(), r) == WrapFailure(RunWrites(old(reg.State()), BIOS_PROFILE), BIOS_FAILURE)
  {
    r := SetValues(reg, BIOS_PROFILE);
    if r.Fail? {
      r := Fail(Wrapped(BIOS_FAILURE, r.error));
    }
  }

  /** Writes to one key under pairwise different value names: the first `k`
      of them leave exactly their own values there, and none of the others
      is touched. */
  lemma PrefixToOneKey(ws: seq<Write>, h: Hive, subKey: string, k: nat)
    requires k <= |ws|
    requires forall i :: 0 <= i < |ws| ==> ws[i].keyPath == KeyPath(h, subKey)
    requires forall i, j :: 0 <= i < j < |ws| ==> ws[i].valueName != ws[j].valueName
    ensures forall i :: 0 <= i < k ==>
      var l := Location(h, subKey, ws[i].valueName);
      l in Written(ws[..k]) && Written(ws[..k])[l] == ws[i].value
    ensures forall i :: k <= i < |ws| ==> Location(h, subKey, ws[i].valueName) !in Written(ws[..k])
  {
    var prefix := ws[..k];
    forall i | 0 <= i < k
      ensures var l := Location(h, subKey, ws[i].valueName);
        l in Written(prefix) && Written(prefix)[l] == ws[i].value
    {
      assert prefix[i] == ws[i];
      LocateKeyPath(h, subKey, ws[i].valueName);
      forall j | i < j < |prefix| ensures prefix[j].valueName != prefix[i].valueName {
        assert prefix[j] == ws[j];
      }
      WrittenLast(prefix, i);
    }
    WrittenNames(prefix);
    forall i | k <= i < |ws|
      ensures ws[i].valueName !in Names(prefix)
    {
      forall w | w in prefix ensures w.valueName != ws[i].valueName {
        var j :| 0 <= j < |prefix| && prefix[j] == w;
        assert ws[j] == w;
      }
    }
  }

  /** A run of writes to one key under different value names, wrapped as the
      identity operations wrap it: the writes before the first failing one
      are in place, the rest of the key's values are as they were, and the
      failure carries the failing set's error as inner cause. */
  lemma OneKeyRun(st: Store, ws: seq<Write>, h: Hive, subKey: string, message: string)
    requires forall i :: 0 <= i < |ws| ==> ws[i].keyPath == KeyPath(h, subKey)
    requires forall i, j :: 0 <= i < j < |ws| ==> ws[i].valueName != ws[j].valueName
    ensures var e := WrapFailure(RunWrites(st, ws), message);
      var k := Committed(st.faults, ws);
      && (forall i :: 0 <= i < k ==>
            var l := Location(h, subKey, ws[i].valueName);
            l in e.after.values && e.after.values[l] == ws[i].value)
      && (forall i :: k <= i < |ws| ==>
            var l := Location(h, subKey, ws[i].valueName);
            (l in e.after.values <==> l in st.values) && (l in st.values ==> e.after.values[l] == st.values[l]))
      && (e.outcome.Fail? <==> k < |ws|)
      && (k < |ws| ==>
            e.outcome.error == Wrapped(message, SetError(st.faults, KeyPath(h, subKey), ws[k].valueName)))
  {
    var k := Committed(st.faults, ws);
    RunWritesValues(st, ws);
    RunWritesOutcome(st, ws);
    PrefixToOneKey(ws, h, subKey, k);
  }

  /** Every BIOS field goes to the BIOS key, each under its own value name. */
  lemma BiosProfileShape()
    ensures forall i :: 0 <= i < |BIOS_PROFILE| ==> BIOS_PROFILE[i].keyPath == KeyPath(LocalMachine, BIOS_SUBKEY)
    ensures forall i, j :: 0 <= i < j < |BIOS_PROFILE| ==> BIOS_PROFILE[i].valueName != BIOS_PROFILE[j].valueName
  {
    assert "SystemProductName"[6] != "SystemManufacturer"[6];
    assert "BaseBoardProduct"[9] != "BaseBoardVersion"[9];
    assert "BaseBoardManufacturer"[9] != "BaseBoardProduct"[9];
  }

  /** A SpoofBIOS that fails at field k leaves fields 0..k-1 set to their
      profile values, every later BIOS value as it was, and reports the
      generic failure with the failing set's error as inner cause. */
  lemma SpoofBiosPartialFailure(st: Store)
    ensures var e := WrapFailure(RunWrites(st, BIOS_PROFILE), BIOS_FAILURE);
      var k := Committed(st.faults, BIOS_PROFILE);
      && (forall i :: 0 <= i < k ==>
            var l := Location(LocalMachine, BIOS_SUBKEY, BIOS_PROFILE[i].valueName);
            l in e.after.values && e.after.values[l] == BIOS_PROFILE[i].value)
      && (forall i :: k <= i < |BIOS_PROFILE| ==>
            var l := Location(LocalMachine, BIOS_SUBKEY, BIOS_PROFILE[i].valueName);
            (l in e.after.values <==> l in st.values) && (l in st.values ==> e.after.values[l] == st.values[l]))
      && (e.outcome.Fail? <==> k < |BIOS_PROFILE|)
      && (k < |BIOS_PROFILE| ==>
            e.outcome.error == Wrapped(BIOS_FAILURE, SetError(st.faults, BIOS_KEY_PATH, BIOS_PROFILE[k].valueName)))
  {
    BiosProfileShape();
    OneKeyRun(st, BIOS_PROFILE, LocalMachine, BIOS_SUBKEY, BIOS_FAILURE);
  }

  /** ChangeMachineGuid: the new identifier (generated by the caller in this
      model) is written to the cryptography key. */
  method ChangeMachineGuid(reg: Registry, newGuid: string) returns (r: Outcome<Error>)
    requires reg.Valid()
    modifies reg
    ensures reg.Valid()
    ensures Effect(reg.State(), r) == WrapFailure(RunWrites(old(reg.State()), MachineGuidWrites(newGuid)), MACHINE_GUID_FAILURE)
  {
    r := SetValues(reg, MachineGuidWrites(newGuid));
    if r.Fail? {
      r := Fail(Wrapped(MACHINE_GUID_FAILURE, r.error));
    }
  }

  /** A successful ChangeMachineGuid leaves the new identifier as the
      MachineGuid value of the cryptography key. */
  lemma MachineGuidStored(st: Store, newGuid: string)
    ensures var e := WrapFailure(RunWrites(st, MachineGuidWrites(newGuid)), MACHINE_GUID_FAILURE);
      var l := Location(LocalMachine, MACHINE_GUID_SUBKEY, "MachineGuid");
      e.outcome.Pass? ==> l in e.after.values && e.after.values[l] == newGuid
  {
    var ws := MachineGuidWrites(newGuid);
    LocateKeyPath(LocalMachine, MACHINE_GUID_SUBKEY, "MachineGuid");
    assert ws[1..] == [];
  }

  /** ChangeHostName: the same name to the computer name, the active computer
      name, and both TCP/IP host name values. */
  method ChangeHostName(reg: Registry, newHostName: string) returns (r: Outcome<Error>)
    requires reg.Valid()
    modifies reg
    ensures reg.Valid()
    ensures Effect(reg.State(), r) == WrapFailure(RunWrites(old(reg.State()), HostNameWrites(newHostName)), HOST_NAME_FAILURE)
  {
    r := SetValues(reg, HostNameWrites(newHostName));
    if r.Fail? {
      r := Fail(Wrapped(HOST_NAME_FAILURE, r.error));
    }
  }

  /** Changing the host name twice to the same name ends exactly as changing
      it once: same registry, same outcome. */
  lemma ChangeHostNameIdempotent(st: Store, newHostName: string)
    ensures var once := WrapFailure(RunWrites(st, HostNameWrites(newHostName)), HOST_NAME_FAILURE);
      WrapFailure(RunWrites(once.after, HostNameWrites(newHostName)), HOST_NAME_FAILURE) == once
  {
    RunWritesIdempotent(st, HostNameWrites(newHostName));
  }

  /** The four locations ChangeHostName writes. */
  function HostNameLocations(): seq<Location> {
    [ Location(LocalMachine, COMPUTER_NAME_SUBKEY, "ComputerName"),
      Location(LocalMachine, ACTIVE_COMPUTER_NAME_SUBKEY, "ComputerName"),
      Location(LocalMachine, TCPIP_PARAMETERS_SUBKEY, "Hostname"),
      Location(LocalMachine, TCPIP_PARAMETERS_SUBKEY, "NV Hostname") ]
  }

  /** Each host-name write lands in its location. */
  lemma HostNameTarget(newHostName: string, i: nat)
    requires i < 4
    ensures var w := HostNameWrites(newHostName)[i];
      Locate(w.keyPath, w.valueName) == Success(HostNameLocations()[i])
  {
    if i == 0 {
      LocateKeyPath(LocalMachine, COMPUTER_NAME_SUBKEY, "ComputerName");
    } else if i == 1 {
      LocateKeyPath(LocalMachine, ACTIVE_COMPUTER_NAME_SUBKEY, "ComputerName");
    } else if i == 2 {
      LocateKeyPath(LocalMachine, TCPIP_PARAMETERS_SUBKEY, "Hostname");
    } else {
      LocateKeyPath(LocalMachine, TCPIP_PARAMETERS_SUBKEY, "NV Hostname");
    }
  }

  /** After a successful ChangeHostName all four locations hold the new name,
      and a run passes only when all four sets succeed. */
  lemma ChangeHostNameEverywhere(st: Store, newHostName: string)
    ensures var e := RunWrites(st, HostNameWrites(newHostName));
      e.outcome.Pass? ==>
        forall i :: 0 <= i < 4 ==>
          HostNameLocations()[i] in e.after.values && e.after.values[HostNameLocations()[i]] == newHostName
    ensures RunWrites(st, HostNameWrites(newHostName)).outcome.Pass? <==> Committed(st.faults, HostNameWrites(newHostName)) == 4
  {
    var ws := HostNameWrites(newHostName);
    RunWritesOutcome(st, ws);
    if RunWrites(st, ws).outcome.Pass? {
      RunWritesValues(st, ws);
      assert ws[..4] == ws;
      UniformWrittenValues(ws, newHostName);
      forall i | 0 <= i < 4 ensures HostNameLocations()[i] in Written(ws) {
        HostNameTarget(newHostName, i);
        WrittenCovers(ws, i);
      }
    }
  }
}
