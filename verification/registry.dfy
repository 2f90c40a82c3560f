/** The Windows registry as the services see it, and the helper that every
    registry access goes through (Services/RegistryHelper.cs).

    The registry is a set of existing keys, each named by a hive and a subkey
    path, and a map from (hive, subkey path, value name) to the value's data.
    Failures of the operating system are not computed: a fault oracle says, per
    value location, whether touching it is refused (access denied) or fails
    for another reason. */
module RegistryHelper {
  import opened Wrappers
  import opened Text

  /** The five hive roots the helper recognises. */
  datatype Hive = LocalMachine | CurrentUser | ClassesRoot | Users | CurrentConfig

  function HiveName(h: Hive): string {
    match h
    case LocalMachine => "HKEY_LOCAL_MACHINE"
    case CurrentUser => "HKEY_CURRENT_USER"
    case ClassesRoot => "HKEY_CLASSES_ROOT"
    case Users => "HKEY_USERS"
    case CurrentConfig => "HKEY_CURRENT_CONFIG"
  }

  /** The exceptions that reach callers. */
  datatype Error =
    | AccessDenied(message: string)           // UnauthorizedAccessException
    | InvalidArgument(message: string)        // ArgumentException
    | SystemError(message: string)            // any other exception raised below the helper
    | Wrapped(message: string, inner: Error)  // new Exception(message, inner)

  /** What the operating system does when a value location is touched. */
  datatype Fault = Denied(message: string) | Broken(message: string)

  /** The exception the operating system raises for a fault. */
  function Raise(f: Fault): Error {
    match f
    case Denied(m) => AccessDenied(m)
    case Broken(m) => SystemError(m)
  }

  /** GetRegistryKey: the hive root named by a string. */
  function GetRegistryKey(hive: string): Result<Hive, Error> {
    var name := ToUpper(hive);
    if name == "HKEY_LOCAL_MACHINE" then Success(LocalMachine)
    else if name == "HKEY_CURRENT_USER" then Success(CurrentUser)
    else if name == "HKEY_CLASSES_ROOT" then Success(ClassesRoot)
    else if name == "HKEY_USERS" then Success(Users)
    else if name == "HKEY_CURRENT_CONFIG" then Success(CurrentConfig)
    else Failure(InvalidArgument("Invalid registry hive: " + hive))
  }

  /** Hive names are matched after upper-casing, so in any letter case; any
      other name is an invalid argument naming the string. */
  lemma GetRegistryKeySpec(hive: string)
    ensures GetRegistryKey(hive).Success? ==> HiveName(GetRegistryKey(hive).value) == ToUpper(hive)
    ensures GetRegistryKey(hive).Failure? ==>
      && (forall h :: HiveName(h) != ToUpper(hive))
      && GetRegistryKey(hive).error == InvalidArgument("Invalid registry hive: " + hive)
  {
  }

  /** A hive name has no lower-case letter, so upper-casing leaves it alone. */
  lemma HiveNameIsUpperCase(h: Hive)
    ensures ToUpper(HiveName(h)) == HiveName(h)
  {
    var n := HiveName(h);
    forall i | 0 <= i < |n| ensures ToUpper(n)[i] == n[i] {
      assert !IsLowerLetter(n[i]);
    }
  }

  /** Every hive name is recognised in upper and in lower case. */
  lemma {:induction false} HiveNamesAnyCase(h: Hive)
    ensures GetRegistryKey(HiveName(h)) == Success(h)
    ensures GetRegistryKey(ToLower(HiveName(h))) == Success(h)
  {
    HiveNameIsUpperCase(h);
    UpperOfLower(HiveName(h));
  }

  /** DeleteRegistryValue's split of a key path: the hive is the first
      `\`-segment and the subkey path is the remaining segments re-joined. */
  function SplitKeyPath(keyPath: string): (r: (string, string))
    ensures '\\' !in r.0
  {
    var parts := Split(keyPath, '\\');
    (parts[0], Join('\\', parts[1..]))
  }

  /** With a backslash, hive + `\` + subkey path rebuilds the key path; with
      none, the whole path is the hive and the subkey path is empty. */
  lemma {:induction false} SplitKeyPathRebuilds(keyPath: string)
    ensures '\\' in keyPath ==> SplitKeyPath(keyPath).0 + "\\" + SplitKeyPath(keyPath).1 == keyPath
    ensures '\\' !in keyPath ==> SplitKeyPath(keyPath) == (keyPath, "")
  {
    var parts := Split(keyPath, '\\');
    JoinSplit(keyPath, '\\');
    if |parts| == 1 {
      assert Join('\\', parts) == parts[0];
    } else {
      assert Join('\\', parts) == parts[0] + ['\\'] + Join('\\', parts[1..]);
      assert keyPath[|parts[0]|] == '\\';
    }
  }

  /** The full key path of a subkey under a hive root, as the services write
      their constant paths. */
  function KeyPath(h: Hive, subKey: string): string {
    HiveName(h) + "\\" + subKey
  }

  type KeyId = (Hive, string)

  /** Where a value lives: its key (hive and subkey path) and its name. */
  datatype Location = Location(hive: Hive, subKey: string, name: string)

  function KeyOf(l: Location): KeyId {
    (l.hive, l.subKey)
  }

  /** The message of the ArgumentException the framework's Registry.SetValue
      and Registry.GetValue raise for a key path without a known root, with
      the parameter name the .NET runtime appends. */
  const ROOT_MESSAGE := "Registry key name must start with a valid base key name. (Parameter 'keyName')"

  /** The framework's parse of a key path: the root name up to the first
      `\`, and everything after it as the subkey path. */
  function ParseKeyPath(keyPath: string): (string, string) {
    var i := IndexOf(keyPath, '\\');
    if i < 0 then (keyPath, "") else (keyPath[..i], keyPath[i + 1..])
  }

  /** DeleteRegistryValue's split and re-join cuts the key path at the same
      place as the framework's parse. */
  lemma SplitKeyPathIsParse(keyPath: string)
    ensures SplitKeyPath(keyPath) == ParseKeyPath(keyPath)
  {
    IndexOfSpec(keyPath, '\\');
    var i := IndexOf(keyPath, '\\');
    if i < 0 {
      SplitWithoutSeparator(keyPath, '\\');
    } else {
      var rest := keyPath[i + 1..];
      assert keyPath == keyPath[..i] + ['\\'] + rest;
      SplitAfterPiece(keyPath[..i], '\\', rest);
      JoinSplit(rest, '\\');
    }
  }

  /** Where a (key path, value name) pair points: the hive table of
      GetRegistryKey applied to the framework's parse, with the framework's
      error on an unknown root. */
  function Locate(keyPath: string, valueName: string): Result<Location, Error> {
    var (hive, subKeyPath) := ParseKeyPath(keyPath);
    match GetRegistryKey(hive)
    case Success(h) => Success(Location(h, subKeyPath, valueName))
    case Failure(_) => Failure(InvalidArgument(ROOT_MESSAGE))
  }

  /** A key path locates when its first segment names a hive in any letter
      case; the location keeps the value name and the remaining segments. */
  lemma LocateSpec(keyPath: string, valueName: string)
    ensures var r := Locate(keyPath, valueName);
      && (r.Success? <==> GetRegistryKey(SplitKeyPath(keyPath).0).Success?)
      && (r.Success? ==> r.value.name == valueName && r.value.subKey == SplitKeyPath(keyPath).1)
      && (r.Success? ==> HiveName(r.value.hive) == ToUpper(SplitKeyPath(keyPath).0))
      && (r.Failure? ==> r.error == InvalidArgument(ROOT_MESSAGE))
  {
    SplitKeyPathIsParse(keyPath);
    GetRegistryKeySpec(SplitKeyPath(keyPath).0);
  }

  /** A key path written as hive root + `\` + subkey path points into that
      hive and subkey, whatever backslashes the subkey path holds. */
  lemma {:induction false} LocateKeyPath(h: Hive, subKey: string, valueName: string)
    ensures Locate(KeyPath(h, subKey), valueName) == Success(Location(h, subKey, valueName))
  {
    var root := HiveName(h);
    assert '\\' !in root;
    assert KeyPath(h, subKey) == root + ['\\'] + subKey;
    IndexOfAfter(root, '\\', subKey);
    assert KeyPath(h, subKey)[|root| + 1..] == subKey;
    HiveNamesAnyCase(h);
  }

  /** The three helper operations, for the messages they produce. */
  datatype Access = Setting | Reading | Deleting

  /** The message start of the helper's catch clauses. */
  function RethrowPrefix(access: Access, denied: bool): string {
    match (access, denied)
    case (Setting, true) => "Access denied while setting registry key: "
    case (Reading, true) => "Access denied while reading registry key: "
    case (Deleting, true) => "Access denied while deleting registry key: "
    case (Setting, false) => "Failed to set registry key "
    case (Reading, false) => "Failed to read registry key "
    case (Deleting, false) => "Failed to delete registry key "
  }

  /** The message end: the cause's message, or the administrator hint on a denied set. */
  function RethrowSuffix(access: Access, cause: Error): string {
    if !cause.AccessDenied? then ": " + cause.message
    else if access == Setting then ". Ensure the application is running with administrative privileges."
    else ""
  }

  /** The helper's two catch clauses: access denied is rethrown as access
      denied with a message naming key path and value, anything else is
      wrapped in a generic exception that keeps the original as inner cause. */
  function Rethrow(access: Access, keyPath: string, valueName: string, cause: Error): Error {
    var message := RethrowPrefix(access, cause.AccessDenied?) + (keyPath + "\\" + valueName) + RethrowSuffix(access, cause);
    if cause.AccessDenied? then AccessDenied(message) else Wrapped(message, cause)
  }

  /** Access denied stays access denied, everything else is wrapped with the
      original as inner cause, and the message always names the value. */
  lemma RethrowSpec(access: Access, keyPath: string, valueName: string, cause: Error)
    ensures var e := Rethrow(access, keyPath, valueName, cause);
      && (e.AccessDenied? <==> cause.AccessDenied?)
      && (!e.AccessDenied? ==> e.Wrapped? && e.inner == cause)
      && Contains(e.message, keyPath + "\\" + valueName)
  {
    var at := keyPath + "\\" + valueName;
    var prefix := RethrowPrefix(access, cause.AccessDenied?);
    var message := Rethrow(access, keyPath, valueName, cause).message;
    assert message == prefix + at + RethrowSuffix(access, cause);
    assert message[|prefix|..|prefix| + |at|] == at;
    ContainsIffOccurs(message, at);
    assert OccursAt(message, at, |prefix|);
  }

  /** The registry as a value: existing keys, value data, and the fault oracle. */
  datatype Store = Store(keys: set<KeyId>, values: map<Location, string>, faults: map<Location, Fault>)

  /** Every value lives under an existing key. */
  ghost predicate Consistent(st: Store) {
    forall l :: l in st.values ==> KeyOf(l) in st.keys
  }

  /** The registry after an operation, and how the operation ended. */
  datatype Effect = Effect(after: Store, outcome: Outcome<Error>)

  /** A set of (key path, value name) succeeds when the root is known and the
      operating system does not refuse the location. */
  predicate Writable(faults: map<Location, Fault>, keyPath: string, valueName: string) {
    Locate(keyPath, valueName).Success? && Locate(keyPath, valueName).value !in faults
  }

  /** The error a set raises when it is not writable. */
  function SetError(faults: map<Location, Fault>, keyPath: string, valueName: string): Error
    requires !Writable(faults, keyPath, valueName)
  {
    match Locate(keyPath, valueName)
    case Failure(e) => Rethrow(Setting, keyPath, valueName, e)
    case Success(l) => Rethrow(Setting, keyPath, valueName, Raise(faults[l]))
  }

  /** SetRegistryValue on a registry value. */
  function Put(st: Store, keyPath: string, valueName: string, value: string): (e: Effect)
    ensures e.after.faults == st.faults
  {
    if !Writable(st.faults, keyPath, valueName) then
      Effect(st, Fail(SetError(st.faults, keyPath, valueName)))
    else
      var l := Locate(keyPath, valueName).value;
      Effect(st.(keys := st.keys + {KeyOf(l)}, values := st.values[l := value]), Pass)
  }

  /** A successful set creates the key if needed and changes the one entry
      (key path, value name) and nothing else; a failed set changes nothing
      and raises the set error; the registry stays consistent. */
  lemma PutSpec(st: Store, keyPath: string, valueName: string, value: string)
    ensures var e := Put(st, keyPath, valueName, value);
      && (e.outcome.Pass? <==> Writable(st.faults, keyPath, valueName))
      && (e.outcome.Fail? ==> e.after == st && e.outcome.error == SetError(st.faults, keyPath, valueName))
      && (e.outcome.Pass? ==>
            var l := Locate(keyPath, valueName).value;
            && l in e.after.values && e.after.values[l] == value
            && e.after.keys == st.keys + {KeyOf(l)}
            && (forall l' :: l' != l ==> (l' in e.after.values <==> l' in st.values))
            && (forall l' :: l' != l && l' in st.values ==> e.after.values[l'] == st.values[l']))
      && (Consistent(st) ==> Consistent(e.after))
  {
  }

  /** GetRegistryValue on a registry value: no value when the key is missing,
      the default when the key exists without the value, the data otherwise. */
  function Read(st: Store, keyPath: string, valueName: string, default: Option<string>): Result<Option<string>, Error> {
    match Locate(keyPath, valueName)
    case Failure(e) => Failure(Rethrow(Reading, keyPath, valueName, e))
    case Success(l) =>
      if KeyOf(l) !in st.keys then Success(None)
      else if l in st.faults then Failure(Rethrow(Reading, keyPath, valueName, Raise(st.faults[l])))
      else if l in st.values then Success(Some(st.values[l]))
      else Success(default)
  }

  /** DeleteRegistryValue on a registry value: the hive of the split path is
      resolved by GetRegistryKey (its ArgumentException is wrapped like any
      other failure); a missing key or a missing value is a silent no-op. */
  function Remove(st: Store, keyPath: string, valueName: string): (e: Effect)
    ensures e.after.keys == st.keys && e.after.faults == st.faults
  {
    var (hive, subKeyPath) := SplitKeyPath(keyPath);
    match GetRegistryKey(hive)
    case Failure(err) => Effect(st, Fail(Rethrow(Deleting, keyPath, valueName, err)))
    case Success(h) =>
      var l := Location(h, subKeyPath, valueName);
      if KeyOf(l) !in st.keys then Effect(st, Pass)
      else if l in st.faults then Effect(st, Fail(Rethrow(Deleting, keyPath, valueName, Raise(st.faults[l]))))
      else Effect(st.(values := st.values - {l}), Pass)
  }

  /** A delete removes at most the one entry and changes nothing else; an
      unknown hive fails with the wrapped invalid-argument error; a missing
      key or value is a successful no-op; the registry stays consistent. */
  lemma RemoveSpec(st: Store, keyPath: string, valueName: string)
    ensures var e := Remove(st, keyPath, valueName);
      && (forall l :: l in e.after.values ==> l in st.values && e.after.values[l] == st.values[l])
      && (Locate(keyPath, valueName).Failure? ==>
            e.after == st && e.outcome.Fail? && e.outcome.error.Wrapped? && e.outcome.error.inner.InvalidArgument?)
      && (Locate(keyPath, valueName).Success? ==>
            var l := Locate(keyPath, valueName).value;
            && (forall l' :: l' != l && l' in st.values ==> l' in e.after.values)
            && (KeyOf(l) !in st.keys || (l !in st.values && l !in st.faults) ==> e == Effect(st, Pass))
            && (Consistent(st) && e.outcome.Pass? ==> l !in e.after.values))
      && (Consistent(st) ==> Consistent(e.after))
  {
    SplitKeyPathIsParse(keyPath);
    GetRegistryKeySpec(SplitKeyPath(keyPath).0);
  }

  /** After a successful set, a read of the same value returns the data written. */
  lemma SetThenRead(st: Store, keyPath: string, valueName: string, value: string, default: Option<string>)
    requires Put(st, keyPath, valueName, value).outcome.Pass?
    ensures Read(Put(st, keyPath, valueName, value).after, keyPath, valueName, default) == Success(Some(value))
  {
  }

  /** After a successful delete, a read of the same value finds nothing. */
  lemma RemoveThenRead(st: Store, keyPath: string, valueName: string)
    requires Remove(st, keyPath, valueName).outcome.Pass?
    ensures Read(Remove(st, keyPath, valueName).after, keyPath, valueName, None) == Success(None)
  {
    SplitKeyPathIsParse(keyPath);
  }

  /** Deleting twice is deleting once: a second delete of a missing value succeeds. */
  lemma RemoveIdempotent(st: Store, keyPath: string, valueName: string)
    ensures var once := Remove(st, keyPath, valueName);
      once.outcome.Pass? ==> Remove(once.after, keyPath, valueName) == once
  {
  }

  /** The machine's registry, changed in place by the helper's methods. */
  class Registry {
    var keys: set<KeyId>
    var values: map<Location, string>
    var faults: map<Location, Fault>

    function State(): Store
      reads this
    {
      Store(keys, values, faults)
    }

    ghost predicate Valid()
      reads this
    {
      Consistent(State())
    }
  }

  /** SetRegistryValue(keyPath, valueName, value). */
  method SetRegistryValue(reg: Registry, keyPath: string, valueName: string, value: string) returns (r: Outcome<Error>)
    requires reg.Valid()
    modifies reg
    ensures reg.Valid()
    ensures Effect(reg.State(), r) == Put(old(reg.State()), keyPath, valueName, value)
  {
    var located := Locate(keyPath, valueName);
    if located.Failure? {
      return Fail(Rethrow(Setting, keyPath, valueName, located.error));
    }
    var l := located.value;
    if l in reg.faults {
      return Fail(Rethrow(Setting, keyPath, valueName, Raise(reg.faults[l])));
    }
    reg.keys := reg.keys + {KeyOf(l)};
    reg.values := reg.values[l := value];
    r := Pass;
  }

  /** GetRegistryValue(keyPath, valueName, defaultValue); a null result is `None`. */
  method GetRegistryValue(reg: Registry, keyPath: string, valueName: string, defaultValue: Option<string>)
    returns (r: Result<Option<string>, Error>)
    ensures r == Read(reg.State(), keyPath, valueName, defaultValue)
    ensures r.Success? && r.value.Some? && r.value != defaultValue ==> Locate(keyPath, valueName).value in reg.values
  {
    var located := Locate(keyPath, valueName);
    if located.Failure? {
      return Failure(Rethrow(Reading, keyPath, valueName, located.error));
    }
    var l := located.value;
    if KeyOf(l) !in reg.keys {
      return Success(None);
    }
    if l in reg.faults {
      return Failure(Rethrow(Reading, keyPath, valueName, Raise(reg.faults[l])));
    }
    r := if l in reg.values then Success(Some(reg.values[l])) else Success(defaultValue);
  }

  /** DeleteRegistryValue(keyPath, valueName). */
  method DeleteRegistryValue(reg: Registry, keyPath: string, valueName: string) returns (r: Outcome<Error>)
    requires reg.Valid()
    modifies reg
    ensures reg.Valid()
    ensures Effect(reg.State(), r) == Remove(old(reg.State()), keyPath, valueName)
  {
    var parts := Split(keyPath, '\\');
    var hive := parts[0];
    var subKeyPath := Join('\\', parts[1..]);
    var key := GetRegistryKey(hive);
    if key.Failure? {
      return Fail(Rethrow(Deleting, keyPath, valueName, key.error));
    }
    var l := Location(key.value, subKeyPath, valueName);
    if KeyOf(l) in reg.keys {
      if l in reg.faults {
        return Fail(Rethrow(Deleting, keyPath, valueName, Raise(reg.faults[l])));
      }
      reg.values := reg.values - {l};
    }
    r := Pass;
  }
}
