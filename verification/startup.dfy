/** Services/StartupHelper.cs: start with the user session through the Run
    value of the current user's registry, written, deleted and read through
    the registry helper. The location of the running assembly is an input. */
module StartupHelper {
  import opened Wrappers
  import opened Text
  import opened RegistryHelper

  const STARTUP_SUBKEY := "Software\\Microsoft\\Windows\\CurrentVersion\\Run"
  const STARTUP_KEY := KeyPath(CurrentUser, STARTUP_SUBKEY)
  const APP_NAME := "AntiVMSpoofTool"

  /** Where the startup command lives. */
  function StartupLocation(): Location {
    Location(CurrentUser, STARTUP_SUBKEY, APP_NAME)
  }

  /** The executable to start: an assembly location ending in ".dll" has that
      extension replaced by ".exe"; any other location is kept. */
  function ExecutablePath(assemblyLocation: string): string {
    if EndsWith(assemblyLocation, ".dll") then
      assemblyLocation[..|assemblyLocation| - 4] + ".exe"
    else
      assemblyLocation
  }

  /** The rewrite keeps the length, touches only the last four characters,
      and never yields a ".dll" path. */
  lemma ExecutablePathSpec(assemblyLocation: string)
    ensures var p := ExecutablePath(assemblyLocation);
      && |p| == |assemblyLocation|
      && !EndsWith(p, ".dll")
      && (EndsWith(assemblyLocation, ".dll") ==>
            EndsWith(p, ".exe") && p[..|p| - 4] == assemblyLocation[..|assemblyLocation| - 4])
      && (!EndsWith(assemblyLocation, ".dll") ==> p == assemblyLocation)
  {
    var p := ExecutablePath(assemblyLocation);
    if EndsWith(assemblyLocation, ".dll") {
      assert p[|p| - 4..] == ".exe";
      assert ".exe"[1] != ".dll"[1];
    }
  }

  /** Rewriting an already rewritten path changes nothing. */
  lemma ExecutablePathIdempotent(assemblyLocation: string)
    ensures ExecutablePath(ExecutablePath(assemblyLocation)) == ExecutablePath(assemblyLocation)
  {
    ExecutablePathSpec(assemblyLocation);
  }

  /** The command stored in the Run value: the executable path in double quotes. */
  function StartupCommand(assemblyLocation: string): string {
    "\"" + ExecutablePath(assemblyLocation) + "\""
  }

  /** The command is quoted and the quotes enclose exactly the executable path. */
  lemma StartupCommandUnquotes(assemblyLocation: string)
    ensures var c := StartupCommand(assemblyLocation);
      && |c| == |assemblyLocation| + 2
      && c[0] == '"' && c[|c| - 1] == '"'
      && c[1..|c| - 1] == ExecutablePath(assemblyLocation)
  {
    ExecutablePathSpec(assemblyLocation);
    var c := StartupCommand(assemblyLocation);
    assert c == ['"'] + ExecutablePath(assemblyLocation) + ['"'];
  }

  /** The exception EnableStartup and DisableStartup raise around a failure. */
  function Rewrap(prefix: string, cause: Error): Error {
    Wrapped(prefix + cause.message, cause)
  }

  const ENABLE_FAILURE := "Failed to enable startup: "
  const DISABLE_FAILURE := "Failed to disable startup: "

  /** EnableStartup on a registry value. */
  function Enable(st: Store, assemblyLocation: string): Effect {
    var e := Put(st, STARTUP_KEY, APP_NAME, StartupCommand(assemblyLocation));
    if e.outcome.Fail? then Effect(e.after, Fail(Rewrap(ENABLE_FAILURE, e.outcome.error))) else e
  }

  /** DisableStartup on a registry value. */
  function Disable(st: Store): Effect {
    var e := Remove(st, STARTUP_KEY, APP_NAME);
    if e.outcome.Fail? then Effect(e.after, Fail(Rewrap(DISABLE_FAILURE, e.outcome.error))) else e
  }

  /** IsStartupEnabled on a registry value: the read returns data; a failed
      read counts as disabled. */
  predicate Enabled(st: Store) {
    var r := Read(st, STARTUP_KEY, APP_NAME, None);
    r.Success? && r.value.Some?
  }

  /** Startup is enabled exactly when the Run key holds the value and reading
      it is not refused. */
  lemma EnabledSpec(st: Store)
    requires Consistent(st)
    ensures Enabled(st) <==> StartupLocation() in st.values && StartupLocation() !in st.faults
  {
    LocateKeyPath(CurrentUser, STARTUP_SUBKEY, APP_NAME);
  }

  /** Enabling fails exactly when the operating system refuses the Run value;
      the failure wraps the helper's error under the enable message and leaves
      the registry unchanged; success stores the quoted command there and
      changes no other value. */
  lemma EnableSpec(st: Store, assemblyLocation: string)
    ensures var e := Enable(st, assemblyLocation);
      && (e.outcome.Fail? <==> StartupLocation() in st.faults)
      && (e.outcome.Fail? ==>
            && e.after == st
            && e.outcome.error.Wrapped?
            && e.outcome.error.message == ENABLE_FAILURE + e.outcome.error.inner.message
            && e.outcome.error.inner == SetError(st.faults, STARTUP_KEY, APP_NAME))
      && (e.outcome.Pass? ==>
            && StartupLocation() in e.after.values
            && e.after.values[StartupLocation()] == StartupCommand(assemblyLocation)
            && e.after.keys == st.keys + {KeyOf(StartupLocation())}
            && (forall l :: l != StartupLocation() ==> (l in e.after.values <==> l in st.values))
            && (forall l :: l != StartupLocation() && l in st.values ==> e.after.values[l] == st.values[l]))
      && (Consistent(st) ==> Consistent(e.after))
  {
    LocateKeyPath(CurrentUser, STARTUP_SUBKEY, APP_NAME);
    PutSpec(st, STARTUP_KEY, APP_NAME, StartupCommand(assemblyLocation));
  }

  /** After a successful EnableStartup, IsStartupEnabled reports true. */
  lemma EnableThenEnabled(st: Store, assemblyLocation: string)
    requires Consistent(st)
    requires Enable(st, assemblyLocation).outcome.Pass?
    ensures Enabled(Enable(st, assemblyLocation).after)
  {
    EnableSpec(st, assemblyLocation);
    EnabledSpec(Enable(st, assemblyLocation).after);
  }

  /** Disabling removes the Run value and nothing else; a missing Run key or
      value is a successful no-op; a refusal wraps the helper's error under
      the disable message and leaves the registry unchanged. */
  lemma DisableSpec(st: Store)
    ensures var e := Disable(st);
      && (forall l :: l in e.after.values ==> l in st.values && e.after.values[l] == st.values[l])
      && (forall l :: l != StartupLocation() && l in st.values ==> l in e.after.values)
      && (StartupLocation() !in st.values && StartupLocation() !in st.faults ==> e == Effect(st, Pass))
      && (e.outcome.Fail? ==>
            && e.after == st
            && e.outcome.error.Wrapped?
            && e.outcome.error.message == DISABLE_FAILURE + e.outcome.error.inner.message)
      && (Consistent(st) && e.outcome.Pass? ==> StartupLocation() !in e.after.values)
      && (Consistent(st) ==> Consistent(e.after))
  {
    LocateKeyPath(CurrentUser, STARTUP_SUBKEY, APP_NAME);
    RemoveSpec(st, STARTUP_KEY, APP_NAME);
  }

  /** After a successful DisableStartup, IsStartupEnabled reports false. */
  lemma DisableThenDisabled(st: Store)
    requires Consistent(st)
    requires Disable(st).outcome.Pass?
    ensures !Enabled(Disable(st).after)
  {
    DisableSpec(st);
    EnabledSpec(Disable(st).after);
  }

  /** Disabling twice is disabling once. */
  lemma DisableIdempotent(st: Store)
    ensures Disable(st).outcome.Pass? ==> Disable(Disable(st).after) == Disable(st)
  {
    RemoveIdempotent(st, STARTUP_KEY, APP_NAME);
  }

  /** EnableStartup(): writes the quoted executable path to the Run value. */
  method EnableStartup(reg: Registry, assemblyLocation: string) returns (r: Outcome<Error>)
    requires reg.Valid()
    modifies reg
    ensures reg.Valid()
    ensures Effect(reg.State(), r) == Enable(old(reg.State()), assemblyLocation)
  {
    var appPath := assemblyLocation;
    if EndsWith(appPath, ".dll") {
      appPath := appPath[..|appPath| - 4] + ".exe";
    }
    appPath := "\"" + appPath + "\"";
    r := SetRegistryValue(reg, STARTUP_KEY, APP_NAME, appPath);
    if r.Fail? {
      r := Fail(Rewrap(ENABLE_FAILURE, r.error));
    }
  }

  /** DisableStartup(): deletes the Run value. */
  method DisableStartup(reg: Registry) returns (r: Outcome<Error>)
    requires reg.Valid()
    modifies reg
    ensures reg.Valid()
    ensures Effect(reg.State(), r) == Disable(old(reg.State()))
  {
    r := DeleteRegistryValue(reg, STARTUP_KEY, APP_NAME);
    if r.Fail? {
      r := Fail(Rewrap(DISABLE_FAILURE, r.error));
    }
  }

  /** IsStartupEnabled(): whether the Run value can be read and holds data. */
  method IsStartupEnabled(reg: Registry) returns (enabled: bool)
    requires reg.Valid()
    ensures enabled <==> StartupLocation() in reg.values && StartupLocation() !in reg.faults
  {
    var value := GetRegistryValue(reg, STARTUP_KEY, APP_NAME, None);
    enabled := value.Success? && value.value.Some?;
    EnabledSpec(reg.State());
  }
}
