/**
 The systemd units and files that run promtail on a node, in the two modes of `getConfig`. The mode is a parameter of
 that function, and its one caller asks for the enabled mode: see `ShootDecisions` for what the actuator does.
 */
module Promtail {
  import opened Upsert

  datatype Unit = Unit(name: string, command: string, enable: bool, content: string)

  datatype File = File(path: string, permissions: int, data: string)

  const UNIT_NAME := "promtail.service"
  const FETCH_TOKEN_UNIT_NAME := "promtail-fetch-token.service"
  const DIRECTORY := "/var/lib/promtail"
  const PATH_ACTIVE_JOURNAL_SCRIPT := DIRECTORY + "/scripts/set_active_journal_file.sh"
  const PATH_FETCH_TOKEN_SCRIPT := DIRECTORY + "/scripts/fetch-token.sh"
  const PATH_AUTH_TOKEN := DIRECTORY + "/auth-token"
  const PATH_CA_CERT := DIRECTORY + "/ca.crt"
  const PATH_CONFIG := DIRECTORY + "/config/config"

  function UnitKey(u: Unit): string { u.name }

  function FileKey(f: File): string { f.path }

  /** The parts of a unit's text that do not depend on the mode. */
  datatype UnitTexts = UnitTexts(promtailHead: string, fetchTokenHead: string)

  function PromtailUnit(texts: UnitTexts, execStartPre: string, execStartPreConfig: string, execStart: string): Unit {
    Unit(UNIT_NAME, "start", true,
         texts.promtailHead + "\nExecStartPre=" + execStartPre + "\nExecStartPre=" + execStartPreConfig +
         "\nExecStart=" + execStart)
  }

  function FetchTokenScriptUnit(texts: UnitTexts, execStartPre: string, execStart: string): Unit {
    Unit(FETCH_TOKEN_UNIT_NAME, "start", true,
         texts.fetchTokenHead + (if execStartPre != "" then "\nExecStartPre=" + execStartPre else "") +
         "\nExecStart=" + execStart)
  }

  /**
   What is rendered outside this model: the two templates, each of which may fail, the CA bundle, the script text
   and the commands built from the image.
   */
  datatype Inputs = Inputs(texts: UnitTexts, config: Rendered, fetchToken: Rendered, ca: string, journalScript: string,
                           copyBinary: string, binaries: string)

  datatype Rendered = Failed | Rendered(data: string)

  datatype Config = Error | Config(units: seq<Unit>, files: seq<File>)

  const DISABLE := "/bin/systemctl disable "
  const REMOVED := " is removed!; while true; do sleep 86400; done\""

  /** `getConfig` */
  function GetConfig(nodeLoggingEnabled: bool, inputs: Inputs): Config {
    if !nodeLoggingEnabled then
      Config(
        [ PromtailUnit(inputs.texts,
                       DISABLE + UNIT_NAME,
                       "/bin/sh -c \"echo 'service does not have configuration'\"",
                       "/bin/sh -c \"echo service " + UNIT_NAME + REMOVED),
          FetchTokenScriptUnit(inputs.texts,
                               DISABLE + FETCH_TOKEN_UNIT_NAME,
                               "/bin/sh -c \"rm -f " + PATH_AUTH_TOKEN + "; echo service " + FETCH_TOKEN_UNIT_NAME +
                               REMOVED) ],
        [])
    else if inputs.config.Failed? || inputs.fetchToken.Failed? then Error
    else
      Config(
        [ PromtailUnit(inputs.texts,
                       inputs.copyBinary,
                       "/bin/sh " + PATH_ACTIVE_JOURNAL_SCRIPT,
                       inputs.binaries + "/promtail -config.file=" + PATH_CONFIG),
          FetchTokenScriptUnit(inputs.texts, "", PATH_FETCH_TOKEN_SCRIPT) ],
        [ File(PATH_CONFIG, 420, inputs.config.data),
          File(PATH_FETCH_TOKEN_SCRIPT, 484, inputs.fetchToken.data),
          File(PATH_CA_CERT, 420, inputs.ca),
          File(PATH_ACTIVE_JOURNAL_SCRIPT, 420, inputs.journalScript) ])
  }

  /** Units are told apart by name and files by path; only the enabled mode can fail, and only by a template. */
  lemma ConfigNames(enabled: bool, inputs: Inputs)
    ensures (forall u: Unit :: UnitKey(u) == u.name) && forall f: File :: FileKey(f) == f.path
    ensures GetConfig(enabled, inputs).Error? <==> enabled && (inputs.config.Failed? || inputs.fetchToken.Failed?)
    ensures GetConfig(enabled, inputs).Config? ==>
      var units := GetConfig(enabled, inputs).units;
      && |units| == 2 && units[0].name == "promtail.service" && units[1].name == "promtail-fetch-token.service"
      && forall u :: u in units ==> u.command == "start" && u.enable
    ensures GetConfig(enabled, inputs).Config? ==>
      var files := GetConfig(enabled, inputs).files;
      if !enabled then files == [] else
        && |files| == 4
        && files[0] == File("/var/lib/promtail" + "/config/config", 0x1A4, inputs.config.data)
        && files[1] == File("/var/lib/promtail" + "/scripts/fetch-token.sh", 0x1E4, inputs.fetchToken.data)
        && files[2] == File("/var/lib/promtail" + "/ca.crt", 0x1A4, inputs.ca)
        && files[3] == File("/var/lib/promtail" + "/scripts/set_active_journal_file.sh", 0x1A4, inputs.journalScript)
  {
  }

  /** With node logging off both services disable themselves and then only wait; with it on they do their work. */
  lemma ConfigCommands(enabled: bool, inputs: Inputs)
    requires GetConfig(enabled, inputs).Config?
    ensures
      var (units, heads) := (GetConfig(enabled, inputs).units, inputs.texts);
      if enabled then
        && units[0].content == heads.promtailHead + "\nExecStartPre=" + inputs.copyBinary +
             "\nExecStartPre=" + ("/bin/sh " + (DIRECTORY + "/scripts/set_active_journal_file.sh")) +
             "\nExecStart=" + (inputs.binaries + "/promtail -config.file=" + (DIRECTORY + "/config/config"))
        && units[1].content == heads.fetchTokenHead + "" + "\nExecStart=" + (DIRECTORY + "/scripts/fetch-token.sh")
      else
        && units[0].content == heads.promtailHead +
             "\nExecStartPre=" + ("/bin/systemctl disable " + "promtail.service") +
             "\nExecStartPre=" + "/bin/sh -c \"echo 'service does not have configuration'\"" +
             "\nExecStart=" + ("/bin/sh -c \"echo service " + "promtail.service" + REMOVED)
        && units[1].content == heads.fetchTokenHead +
             ("\nExecStartPre=" + ("/bin/systemctl disable " + "promtail-fetch-token.service")) +
             "\nExecStart=" + ("/bin/sh -c \"rm -f " + (DIRECTORY + "/auth-token") + "; echo service " +
             "promtail-fetch-token.service" + REMOVED)
  {
  }

  /** Each mode's units have all the names of the other's. */
  lemma ModesShareUnitNames(was: bool, before: Inputs, enabled: bool, inputs: Inputs)
    requires GetConfig(was, before).Config? && GetConfig(enabled, inputs).Config?
    ensures Covers(GetConfig(enabled, inputs).units, UnitKey, GetConfig(was, before).units)
  {
    var a, b := GetConfig(was, before).units, GetConfig(enabled, inputs).units;
    assert UnitKey(b[0]) == UNIT_NAME && UnitKey(b[1]) == FETCH_TOKEN_UNIT_NAME;
    assert UnitKey(a[0]) == UNIT_NAME && UnitKey(a[1]) == FETCH_TOKEN_UNIT_NAME;
  }

  /** Upserting one mode's units after the other's leaves nothing of the first. */
  lemma ModeSwitchLeavesNoUnits(units: seq<Unit>, was: bool, before: Inputs, enabled: bool, inputs: Inputs)
    requires GetConfig(was, before).Config? && GetConfig(enabled, inputs).Config?
    ensures
      var (a, b) := (GetConfig(was, before).units, GetConfig(enabled, inputs).units);
      PutAll(PutAll(units, UnitKey, a), UnitKey, b) == PutAll(units, UnitKey, b)
  {
    ModesShareUnitNames(was, before, enabled, inputs);
    NoResidue(units, UnitKey, GetConfig(was, before).units, GetConfig(enabled, inputs).units);
  }

  /** With the files that is so unless the disabled mode follows the enabled one: it names no file to replace. */
  lemma ModeSwitchLeavesFiles(was: bool, before: Inputs, enabled: bool, inputs: Inputs)
    requires GetConfig(was, before).Config? && GetConfig(enabled, inputs).Config?
    ensures
      var (a, b) := (GetConfig(was, before).files, GetConfig(enabled, inputs).files);
      (was && !enabled) <==> exists files :: PutAll(PutAll(files, FileKey, a), FileKey, b) != PutAll(files, FileKey, b)
  {
    var a, b := GetConfig(was, before).files, GetConfig(enabled, inputs).files;
    if was && !enabled {
      assert !HasKey(b, FileKey, FileKey(a[0]));
      Residue(FileKey, a, b);
      var none: seq<File> := [];
      assert PutAll(PutAll(none, FileKey, a), FileKey, b) != PutAll(none, FileKey, b);
    } else {
      assert forall i :: 0 <= i < |a| ==> FileKey(a[i]) == FileKey(b[i]);
      forall files ensures PutAll(PutAll(files, FileKey, a), FileKey, b) == PutAll(files, FileKey, b) {
        NoResidue(files, FileKey, a, b);
      }
    }
  }
}
