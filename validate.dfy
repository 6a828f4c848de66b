/** The extension's pre-packaging validator: structural rules over the package manifest, the
    cross-check of contributed commands and views against the source text, a few integration
    checks and the exit rule. The file system, `JSON.parse` and the regular-expression scans are
    oracles; console output is not modelled. */
module Validate {
  import opened Wrappers
  import opened Js
  import Text

  // Scans of the source text.

  datatype Pair = Pair(key: string, value: string)

  /** The regular-expression scans of a text, each as the list of its successive matches (a
      global regex advanced by `exec` until it fails). */
  datatype Scans = Scans(
    // `const COMMAND_IDS = { ... };`: the text between the braces
    commandIdsBlock: string -> Option<string>,
    // `key: 'value'` pairs in that text
    commandIdPairs: string -> seq<Pair>,
    // `registerCommand('id'`: the ids
    literalCommands: string -> seq<string>,
    // `registerCommand(COMMAND_IDS.key`: the keys
    constantCommands: string -> seq<string>,
    // `createTreeView('id'`: the ids
    literalTreeViews: string -> seq<string>,
    // `createTreeView(VIEW_ID_TRAFFIC`
    usesViewIdConstant: string -> bool,
    // `const VIEW_ID_TRAFFIC = 'id'`: the id
    viewIdConstant: string -> Option<string>,
    // `spawn('npx'` or `spawn('npx.cmd'`
    spawnsNpx: string -> bool)

  /** The object `parseCommandIdsMap` fills: each pair assigns its key in turn. */
  function PairsToMap(pairs: seq<Pair>): map<string, string> {
    if pairs == [] then map[]
    else PairsToMap(pairs[..|pairs| - 1])[pairs[|pairs| - 1].key := pairs[|pairs| - 1].value]
  }

  /** A key is in the map exactly when some pair has it. */
  lemma {:induction false} PairKeys(pairs: seq<Pair>, k: string)
    ensures k in PairsToMap(pairs) <==> exists i :: 0 <= i < |pairs| && pairs[i].key == k
    decreases |pairs|
  {
    if pairs != [] {
      var n := |pairs|;
      var pre := pairs[..n - 1];
      PairKeys(pre, k);
      if exists i :: 0 <= i < n && pairs[i].key == k {
        var i :| 0 <= i < n && pairs[i].key == k;
        if i < n - 1 {
          assert pre[i].key == k;
        }
      }
      if exists i :: 0 <= i < n - 1 && pre[i].key == k {
        var i :| 0 <= i < n - 1 && pre[i].key == k;
        assert pairs[i].key == k;
      }
    }
  }

  /** A key holds the value of the last pair that has it. */
  lemma {:induction false} LastPairWins(pairs: seq<Pair>, k: string, i: nat)
    requires i < |pairs| && pairs[i].key == k
    requires forall j :: i < j < |pairs| ==> pairs[j].key != k
    ensures k in PairsToMap(pairs) && PairsToMap(pairs)[k] == pairs[i].value
    decreases |pairs|
  {
    var n := |pairs|;
    if i < n - 1 {
      var pre := pairs[..n - 1];
      assert pairs[n - 1].key != k;
      assert pre[i] == pairs[i];
      assert forall j :: i < j < n - 1 ==> pre[j] == pairs[j];
      LastPairWins(pre, k, i);
    }
  }

  /** `parseCommandIdsMap`: empty when there is no `COMMAND_IDS` block. */
  function CommandIdsMap(content: string, scans: Scans): map<string, string> {
    match scans.commandIdsBlock(content)
    case None => map[]
    case Some(body) => PairsToMap(scans.commandIdPairs(body))
  }

  method ParseCommandIdsMap(content: string, scans: Scans) returns (m: map<string, string>)
    ensures m == CommandIdsMap(content, scans)
  {
    m := map[];
    var block := scans.commandIdsBlock(content);
    if block.None? {
      return;
    }
    var pairs := scans.commandIdPairs(block.value);
    var i := 0;
    while i < |pairs|
      invariant 0 <= i <= |pairs|
      invariant m == PairsToMap(pairs[..i])
    {
      assert pairs[..i + 1][..i] == pairs[..i];
      m := m[pairs[i].key := pairs[i].value];
      i := i + 1;
    }
    assert pairs[..i] == pairs;
  }

  /** The ids the referenced keys yield: a key missing from the map, or mapped to "", adds
      nothing. */
  function MappedIds(keys: seq<string>, m: map<string, string>): set<string> {
    if keys == [] then {}
    else
      var k := keys[|keys| - 1];
      MappedIds(keys[..|keys| - 1], m) + (if k in m && m[k] != "" then {m[k]} else {})
  }

  lemma {:induction false} MappedIdsIff(keys: seq<string>, m: map<string, string>, x: string)
    ensures x in MappedIds(keys, m) <==> exists i :: 0 <= i < |keys| && keys[i] in m && m[keys[i]] == x && x != ""
    decreases |keys|
  {
    if keys != [] {
      var n := |keys|;
      var pre := keys[..n - 1];
      MappedIdsIff(pre, m, x);
      assert forall i :: 0 <= i < n - 1 ==> pre[i] == keys[i];
      if exists i :: 0 <= i < n && keys[i] in m && m[keys[i]] == x && x != "" {
        var i :| 0 <= i < n && keys[i] in m && m[keys[i]] == x && x != "";
        if i < n - 1 {
          assert pre[i] in m && m[pre[i]] == x;
        }
      }
    }
  }

  /** `extractRegisteredCommands`: the literal ids and the mapped ids of the referenced keys. */
  function RegisteredCommands(content: string, scans: Scans): set<string> {
    (set id | id in scans.literalCommands(content)) + MappedIds(scans.constantCommands(content), CommandIdsMap(content, scans))
  }

  /** An id is registered exactly when it is registered literally or some referenced key maps to
      it; keys the map does not hold are skipped. */
  lemma RegisteredIff(content: string, scans: Scans, x: string)
    ensures var m := CommandIdsMap(content, scans);
            var keys := scans.constantCommands(content);
            x in RegisteredCommands(content, scans) <==>
              x in scans.literalCommands(content)
              || exists i :: 0 <= i < |keys| && keys[i] in m && m[keys[i]] == x && x != ""
    ensures scans.commandIdsBlock(content).None? ==>
              RegisteredCommands(content, scans) == set id | id in scans.literalCommands(content)
  {
    MappedIdsIff(scans.constantCommands(content), CommandIdsMap(content, scans), x);
    if scans.commandIdsBlock(content).None? {
      NothingMapped(scans.constantCommands(content));
    }
  }

  lemma {:induction false} NothingMapped(keys: seq<string>)
    ensures MappedIds(keys, map[]) == {}
    decreases |keys|
  {
    if keys != [] {
      NothingMapped(keys[..|keys| - 1]);
    }
  }

  method ExtractRegisteredCommands(content: string, scans: Scans) returns (ids: set<string>)
    ensures ids == RegisteredCommands(content, scans)
  {
    ids := {};
    var literals := scans.literalCommands(content);
    var m := ParseCommandIdsMap(content, scans);
    var i := 0;
    while i < |literals|
      invariant 0 <= i <= |literals|
      invariant ids == set id | id in literals[..i]
    {
      assert literals[..i + 1] == literals[..i] + [literals[i]];
      ids := ids + {literals[i]};
      i := i + 1;
    }
    assert literals[..i] == literals;
    var keys := scans.constantCommands(content);
    var k := 0;
    while k < |keys|
      invariant 0 <= k <= |keys|
      invariant ids == (set id | id in literals) + MappedIds(keys[..k], m)
    {
      assert keys[..k + 1][..k] == keys[..k];
      var key := keys[k];
      if key in m && m[key] != "" {
        ids := ids + {m[key]};
      }
      k := k + 1;
    }
    assert keys[..k] == keys;
  }

  /** `extractCreatedTreeViews`: the literal ids, and the `VIEW_ID_TRAFFIC` value when the
      constant is both defined and used. */
  function CreatedTreeViews(content: string, scans: Scans): set<string> {
    var c := scans.viewIdConstant(content);
    (set id | id in scans.literalTreeViews(content))
    + (if scans.usesViewIdConstant(content) && c.Some? && c.value != "" then {c.value} else {})
  }

  method ExtractCreatedTreeViews(content: string, scans: Scans) returns (ids: set<string>)
    ensures ids == CreatedTreeViews(content, scans)
  {
    ids := {};
    var literals := scans.literalTreeViews(content);
    var i := 0;
    while i < |literals|
      invariant 0 <= i <= |literals|
      invariant ids == set id | id in literals[..i]
    {
      assert literals[..i + 1] == literals[..i] + [literals[i]];
      ids := ids + {literals[i]};
      i := i + 1;
    }
    assert literals[..i] == literals;
    var viewId := scans.viewIdConstant(content);
    if scans.usesViewIdConstant(content) && viewId.Some? && viewId.value != "" {
      ids := ids + {viewId.value};
    }
  }

  // The manifest and the project directory.

  /** What the validator reports. Messages are represented by their kind and the values they
      interpolate. */
  datatype Issue =
    | RequiredFileMissing(path: string)
    | PackageJsonNotFound
    | Unparsable(file: string)
    | Unreadable(file: string)
    | MissingField(field: string)
    | NameHasAt
    | MainNotFound(main: string)
    | IconNotFound(icon: string)
    | InvalidCommand(cmd: JsValue)
    | NoCommands
    | InvalidView(container: string, view: JsValue)
    | NoViews
    | NoActivationEvents
    | LocalDependency(dep: string)
    | NoExports
    | NoDelegation
    | CommandNotRegistered(command: JsValue)
    | ViewNotCreated(container: string, id: JsValue)
    | PortMissing
    | BaseUrlMissing
    | PackageNotReferenced
    | NoNpxSpawn
    | NoAutoYes
    | NoSigterm
    | NoNodeModules
    | NoVscodeIgnore
    | NoReadme

  /** The project directory, paths relative to its root: which paths exist, what reading a file
      yields (`None`: the read throws), and the files under `src/`, recursively, in listing
      order (empty when `src/` does not exist). */
  datatype Disk = Disk(present: string -> bool, read: string -> Option<string>, srcListing: seq<string>)

  /** The two lists and whether an uncaught TypeError has ended the script. */
  datatype Log = Log(errors: seq<Issue>, warnings: seq<Issue>, crashed: bool)

  function AddError(log: Log, i: Issue): Log {
    log.(errors := log.errors + [i])
  }

  function AddWarning(log: Log, i: Issue): Log {
    log.(warnings := log.warnings + [i])
  }

  function Thrown(log: Log): Log {
    log.(crashed := true)
  }

  /** A value read alongside the log it left. */
  datatype Loaded<T> = Loaded(log: Log, value: T)

  /** A step's log and its boolean result. */
  datatype Checked = Checked(log: Log, ok: bool)

  predicate Nullish(v: JsValue) {
    v.Undefined? || v.Null?
  }

  /** The decimal text of an array index. */
  function IndexKey(i: nat): string {
    if i < 10 then ["0123456789"[i]] else IndexKey(i / 10) + ["0123456789"[i % 10]]
  }

  function Chars(s: string): seq<JsValue> {
    seq(|s|, i requires 0 <= i < |s| => Str([s[i]]))
  }

  /** `Object.entries(v)` for a value that is neither `null` nor `undefined`. */
  function Entries(v: JsValue): seq<Prop> {
    match v
    case Obj(props) => props
    case Arr(items) => seq(|items|, i requires 0 <= i < |items| => Prop(IndexKey(i), items[i]))
    case Str(s) => seq(|s|, i requires 0 <= i < |s| => Prop(IndexKey(i), Str([s[i]])))
    case _ => []
  }

  /** The elements `for (const x of v || [])` visits; `None` when `v` is truthy but not
      iterable, which throws. */
  function Iterate(v: JsValue): Option<seq<JsValue>> {
    if !Truthy(v) then Some([])
    else match v
      case Arr(items) => Some(items)
      case Str(s) => Some(Chars(s))
      case _ => None
  }

  const PackageFile: string := "package.json"
  const MainFile: string := "extension.js"
  const RequiredPaths: seq<string> := [PackageFile, MainFile, "src/extension/index.js"]
  const RequiredFields: seq<string> := ["name", "version", "publisher", "displayName", "main", "engines"]

  /** `validateFileStructure`. */
  function FileStructure(log: Log, disk: Disk, paths: seq<string>): Log {
    if paths == [] then log
    else
      var l := FileStructure(log, disk, paths[..|paths| - 1]);
      var p := paths[|paths| - 1];
      if disk.present(p) then l else AddError(l, RequiredFileMissing(p))
  }

  /** `readJson`: a read or parse failure is one error and `None`. */
  function ReadJson(log: Log, disk: Disk, parse: string -> Option<JsValue>, file: string): Loaded<Option<JsValue>> {
    match disk.read(file)
    case None => Loaded(AddError(log, Unparsable(file)), None)
    case Some(text) =>
      match parse(text)
      case None => Loaded(AddError(log, Unparsable(file)), None)
      case Some(v) => Loaded(log, Some(v))
  }

  /** `readText`: a read failure is one error and `None`. */
  function ReadText(log: Log, disk: Disk, file: string): Loaded<Option<string>> {
    match disk.read(file)
    case None => Loaded(AddError(log, Unreadable(file)), None)
    case Some(text) => Loaded(log, Some(text))
  }

  /** One error per required field that is missing or falsy. */
  function FieldsChecked(log: Log, pkg: JsValue, fields: seq<string>): Log {
    if fields == [] then log
    else
      var l := FieldsChecked(log, pkg, fields[..|fields| - 1]);
      var f := fields[|fields| - 1];
      if Truthy(Field(pkg, f)) then l else AddError(l, MissingField(f))
  }

  /** `pkg.name?.includes("@")`: strings and arrays have `includes`; any other value that is not
      `null`/`undefined` makes the call throw. */
  function NameRule(log: Log, name: JsValue): Log {
    match name
    case Undefined => log
    case Null => log
    case Str(s) => if Text.Contains(s, "@") then AddError(log, NameHasAt) else log
    case Arr(items) => if Str("@") in items then AddError(log, NameHasAt) else log
    case _ => Thrown(log)
  }

  /** A truthy `main` must name an existing file; `path.join` throws on a non-string. */
  function MainRule(log: Log, disk: Disk, main: JsValue): Log {
    if !Truthy(main) then log
    else if !main.Str? then Thrown(log)
    else if disk.present(main.s) then log
    else AddError(log, MainNotFound(main.s))
  }

  /** A truthy `icon` that names no file is a warning. */
  function IconRule(log: Log, disk: Disk, icon: JsValue): Log {
    if !Truthy(icon) then log
    else if !icon.Str? then Thrown(log)
    else if disk.present(icon.s) then log
    else AddWarning(log, IconNotFound(icon.s))
  }

  predicate BadCommand(cmd: JsValue) {
    !Truthy(Field(cmd, "command")) || !Truthy(Field(cmd, "title"))
  }

  function CommandChecked(log: Log, cmd: JsValue): Log {
    if Nullish(cmd) then Thrown(log)
    else if BadCommand(cmd) then AddError(log, InvalidCommand(cmd))
    else log
  }

  /** The contributed commands, in order; reading `command` of a `null` entry throws and ends
      the script. */
  function CommandsChecked(log: Log, cmds: seq<JsValue>): Log {
    if cmds == [] then log
    else
      var l := CommandsChecked(log, cmds[..|cmds| - 1]);
      if l.crashed then l else CommandChecked(l, cmds[|cmds| - 1])
  }

  predicate BadView(view: JsValue) {
    !Truthy(Field(view, "id")) || !Truthy(Field(view, "name"))
  }

  function ViewChecked(log: Log, container: string, view: JsValue): Log {
    if Nullish(view) then Thrown(log)
    else if BadView(view) then AddError(log, InvalidView(container, view))
    else log
  }

  function ViewsChecked(log: Log, container: string, views: seq<JsValue>): Log {
    if views == [] then log
    else
      var l := ViewsChecked(log, container, views[..|views| - 1]);
      if l.crashed then l else ViewChecked(l, container, views[|views| - 1])
  }

  /** Each view container's views, in order. */
  function ContainersChecked(log: Log, containers: seq<Prop>): Log {
    if containers == [] then log
    else
      var l := ContainersChecked(log, containers[..|containers| - 1]);
      var c := containers[|containers| - 1];
      if l.crashed then l
      else match Iterate(c.value)
        case None => Thrown(l)
        case Some(views) => ViewsChecked(l, c.key, views)
  }

  function CommandRules(log: Log, contributes: JsValue): Log {
    var cmds := Field(contributes, "commands");
    if Truthy(contributes) && cmds.Arr? then CommandsChecked(log, cmds.items) else AddWarning(log, NoCommands)
  }

  function ViewRules(log: Log, contributes: JsValue): Log {
    var views := Field(contributes, "views");
    if Truthy(views) then ContainersChecked(log, Entries(views)) else AddWarning(log, NoViews)
  }

  function ActivationRule(log: Log, events: JsValue): Log {
    if !events.Arr? || events.items == [] then AddWarning(log, NoActivationEvents) else log
  }

  predicate LocalVersion(version: JsValue) {
    version.Str? && (Text.StartsWith(version.s, "file:") || Text.StartsWith(version.s, "github:"))
  }

  function DependenciesChecked(log: Log, deps: seq<Prop>): Log {
    if deps == [] then log
    else
      var l := DependenciesChecked(log, deps[..|deps| - 1]);
      var d := deps[|deps| - 1];
      if LocalVersion(d.value) then AddWarning(l, LocalDependency(d.key)) else l
  }

  function DependencyRules(log: Log, deps: JsValue): Log {
    if Truthy(deps) then DependenciesChecked(log, Entries(deps)) else log
  }

  /** The rules `validatePackageJson` applies to a truthy manifest, in order; a throw ends them. */
  function PackageRules(log: Log, disk: Disk, pkg: JsValue): Log {
    var l := FieldsChecked(log, pkg, RequiredFields);
    var l := NameRule(l, Field(pkg, "name"));
    if l.crashed then l else
    var l := MainRule(l, disk, Field(pkg, "main"));
    if l.crashed then l else
    var l := IconRule(l, disk, Field(pkg, "icon"));
    if l.crashed then l else
    var l := CommandRules(l, Field(pkg, "contributes"));
    if l.crashed then l else
    var l := ViewRules(l, Field(pkg, "contributes"));
    if l.crashed then l else
    var l := ActivationRule(l, Field(pkg, "activationEvents"));
    DependencyRules(l, Field(pkg, "dependencies"))
  }

  /** `validatePackageJson`. */
  function PackageJson(log: Log, disk: Disk, parse: string -> Option<JsValue>): Checked {
    if !disk.present(PackageFile) then Checked(AddError(log, PackageJsonNotFound), false)
    else
      var r := ReadJson(log, disk, parse, PackageFile);
      if r.value.None? || !Truthy(r.value.value) then Checked(r.log, false)
      else Checked(PackageRules(r.log, disk, r.value.value), true)
  }

  /** `validateExtensionEntrypoint`. */
  function Entrypoint(log: Log, disk: Disk): Checked {
    var r := ReadText(log, disk, MainFile);
    if r.value.None? || r.value.value == "" then Checked(r.log, false)
    else
      var c := r.value.value;
      var l := if Text.Contains(c, "module.exports") then r.log else AddError(r.log, NoExports);
      var l := if Text.Contains(c, "require(\"./src/extension\")") || Text.Contains(c, "require('./src/extension')")
               then l else AddWarning(l, NoDelegation);
      Checked(l, true)
  }

  function JsOnly(paths: seq<string>): seq<string> {
    if paths == [] then [] else (if Text.EndsWith(paths[0], ".js") then [paths[0]] else []) + JsOnly(paths[1..])
  }

  function PresentOnly(disk: Disk, paths: seq<string>): seq<string> {
    if paths == [] then [] else (if disk.present(paths[0]) then [paths[0]] else []) + PresentOnly(disk, paths[1..])
  }

  /** The files `getAllSourceText` reads: `extension.js` and the `.js` files under `src/`, those
      that exist. */
  function SourceFiles(disk: Disk): seq<string> {
    PresentOnly(disk, [MainFile] + JsOnly(disk.srcListing))
  }

  /** Reading each file in turn: a failed read is one error, and empty or unreadable files are
      dropped. */
  function ReadAll(log: Log, disk: Disk, paths: seq<string>): Loaded<seq<string>> {
    if paths == [] then Loaded(log, [])
    else
      var r := ReadAll(log, disk, paths[..|paths| - 1]);
      var p := paths[|paths| - 1];
      match disk.read(p)
      case None => Loaded(AddError(r.log, Unreadable(p)), r.value)
      case Some(text) => if text == "" then r else Loaded(r.log, r.value + [text])
  }

  /** `getAllSourceText`. */
  function SourceText(log: Log, disk: Disk): Loaded<string> {
    var r := ReadAll(log, disk, SourceFiles(disk));
    Loaded(r.log, Text.Join(r.value, "\n"))
  }

  predicate NotRegistered(cmd: JsValue, registered: set<string>) {
    var c := Field(cmd, "command");
    Truthy(c) && !(c.Str? && c.s in registered)
  }

  function Unregistered(log: Log, cmds: seq<JsValue>, registered: set<string>): Log {
    if cmds == [] then log
    else
      var l := Unregistered(log, cmds[..|cmds| - 1], registered);
      var cmd := cmds[|cmds| - 1];
      if NotRegistered(cmd, registered) then AddError(l, CommandNotRegistered(Field(cmd, "command"))) else l
  }

  predicate NotCreated(view: JsValue, created: set<string>) {
    var id := Field(view, "id");
    Truthy(id) && !(id.Str? && id.s in created)
  }

  function UncreatedViews(log: Log, container: string, views: seq<JsValue>, created: set<string>): Log {
    if views == [] then log
    else
      var l := UncreatedViews(log, container, views[..|views| - 1], created);
      var view := views[|views| - 1];
      if NotCreated(view, created) then AddError(l, ViewNotCreated(container, Field(view, "id"))) else l
  }

  function Uncreated(log: Log, containers: seq<Prop>, created: set<string>): Log {
    if containers == [] then log
    else
      var l := Uncreated(log, containers[..|containers| - 1], created);
      var c := containers[|containers| - 1];
      if l.crashed then l
      else match Iterate(c.value)
        case None => Thrown(l)
        case Some(views) => UncreatedViews(l, c.key, views, created)
  }

  /** `validateContributionsMatchCode`. */
  function Contributions(log: Log, disk: Disk, parse: string -> Option<JsValue>, scans: Scans): Checked {
    var r := ReadJson(log, disk, parse, PackageFile);
    if r.value.None? || !Truthy(r.value.value) then Checked(r.log, false)
    else
      var pkg := r.value.value;
      var code := SourceText(r.log, disk);
      var contributes := Field(pkg, "contributes");
      var cmds := Field(contributes, "commands");
      var views := Field(contributes, "views");
      var l := Unregistered(code.log, if Truthy(contributes) && cmds.Arr? then cmds.items else [],
                            RegisteredCommands(code.value, scans));
      Checked(Uncreated(l, if Truthy(views) then Entries(views) else [], CreatedTreeViews(code.value, scans)), true)
  }

  /** The checks of `validateMcpSharkIntegration` on the source text: the server's port, its
      URL and the package that provides it... */
  function ServerChecks(log: Log, code: string): Log {
    var l := if Text.Contains(code, "9853") then log else AddError(log, PortMissing);
    var l := if Text.Contains(code, "http://localhost:9853") || (Text.Contains(code, "MCP_SHARK_BASE_URL") && Text.Contains(code, "9853"))
             then l else AddWarning(l, BaseUrlMissing);
    if Text.Contains(code, "@mcp-shark/mcp-shark") then l else AddError(l, PackageNotReferenced)
  }

  /** ...and how the server process is spawned and stopped, which only ever warns. */
  function ProcessChecks(log: Log, code: string, scans: Scans): Log {
    var l := if scans.spawnsNpx(code) then log else AddWarning(log, NoNpxSpawn);
    var l := if Text.Contains(code, "['-y'") || Text.Contains(code, "[\"-y\"") || Text.Contains(code, "\" -y\"") || Text.Contains(code, "' -y'")
             then l else AddWarning(l, NoAutoYes);
    if Text.Contains(code, "kill -TERM") || Text.Contains(code, "taskkill /PID") then l else AddWarning(l, NoSigterm)
  }

  function Integration(log: Log, disk: Disk, scans: Scans): Log {
    var code := SourceText(log, disk);
    ProcessChecks(ServerChecks(code.log, code.value), code.value, scans)
  }

  /** `checkCommonIssues`. */
  function CommonIssues(log: Log, disk: Disk): Log {
    var l := if disk.present("node_modules") then log else AddWarning(log, NoNodeModules);
    var l := if disk.present(".vscodeignore") then l else AddWarning(l, NoVscodeIgnore);
    if disk.present("README.md") then l else AddWarning(l, NoReadme)
  }

  /** The whole run of `runValidation` from empty lists; a throw ends it. */
  function Validation(disk: Disk, parse: string -> Option<JsValue>, scans: Scans): Log {
    var l := PackageJson(FileStructure(Log([], [], false), disk, RequiredPaths), disk, parse).log;
    if l.crashed then l else ValidationRest(l, disk, parse, scans)
  }

  /** The steps after the manifest checks. */
  function ValidationRest(log: Log, disk: Disk, parse: string -> Option<JsValue>, scans: Scans): Log {
    var l := Contributions(Entrypoint(log, disk).log, disk, parse, scans).log;
    if l.crashed then l else CommonIssues(Integration(l, disk, scans), disk)
  }

  /** The exit code: 0 exactly when the script finished with no error. */
  function ExitCode(log: Log): int {
    if log.crashed || log.errors != [] then 1 else 0
  }

  /** Each required field adds exactly one error when it is missing or falsy and none otherwise,
      and the field rule adds nothing else. */
  lemma {:induction false} OneErrorPerMissingField(log: Log, pkg: JsValue, fields: seq<string>, f: string)
    requires forall i, j :: 0 <= i < j < |fields| ==> fields[i] != fields[j]
    ensures multiset(FieldsChecked(log, pkg, fields).errors)[MissingField(f)]
            == multiset(log.errors)[MissingField(f)] + (if f in fields && !Truthy(Field(pkg, f)) then 1 else 0)
    decreases |fields|
  {
    if fields != [] {
      var n := |fields|;
      var pre := fields[..n - 1];
      OneErrorPerMissingField(log, pkg, pre, f);
      var l := FieldsChecked(log, pkg, pre);
      assert f in fields <==> f in pre || f == fields[n - 1];
      assert fields[n - 1] !in pre;
      if !Truthy(Field(pkg, fields[n - 1])) {
        assert multiset(l.errors + [MissingField(fields[n - 1])]) == multiset(l.errors) + multiset{MissingField(fields[n - 1])};
      }
    }
  }

  /** The field rule keeps what was logged before, only appends `MissingField` errors for the
      listed fields, never warns and never throws. */
  lemma {:induction false} FieldErrorsOnly(log: Log, pkg: JsValue, fields: seq<string>)
    ensures var r := FieldsChecked(log, pkg, fields);
            && r.warnings == log.warnings && r.crashed == log.crashed
            && |r.errors| >= |log.errors| && r.errors[..|log.errors|] == log.errors
            && (forall k :: |log.errors| <= k < |r.errors| ==> r.errors[k].MissingField? && r.errors[k].field in fields)
    decreases |fields|
  {
    if fields != [] {
      var n := |fields|;
      var pre := fields[..n - 1];
      FieldErrorsOnly(log, pkg, pre);
      var l := FieldsChecked(log, pkg, pre);
      assert forall x :: x in pre ==> x in fields;
      if !Truthy(Field(pkg, fields[n - 1])) {
        assert (l.errors + [MissingField(fields[n - 1])])[..|log.errors|] == l.errors[..|log.errors|];
      }
    }
  }

  /** The contributed-command rule throws exactly when some entry is `null` or `undefined`, and
      never warns. */
  lemma {:induction false} CommandCrash(log: Log, cmds: seq<JsValue>)
    requires !log.crashed
    ensures CommandsChecked(log, cmds).warnings == log.warnings
    ensures CommandsChecked(log, cmds).crashed <==> exists i :: 0 <= i < |cmds| && Nullish(cmds[i])
    decreases |cmds|
  {
    if cmds != [] {
      var n := |cmds|;
      var pre := cmds[..n - 1];
      CommandCrash(log, pre);
      if CommandsChecked(log, pre).crashed {
        var i :| 0 <= i < n - 1 && Nullish(pre[i]);
        assert Nullish(cmds[i]);
      } else {
        assert forall i :: 0 <= i < n - 1 ==> pre[i] == cmds[i];
      }
    }
  }

  /** `e` is the error the command rule reports for some entry of `cmds`. */
  predicate ReportsBadCommand(e: Issue, cmds: seq<JsValue>) {
    exists i :: 0 <= i < |cmds| && e == InvalidCommand(cmds[i]) && BadCommand(cmds[i])
  }

  /** The contributed-command rule adds one error per entry without a truthy `command` or
      `title`, in order, and nothing for the others. */
  lemma {:induction false} CommandErrors(log: Log, cmds: seq<JsValue>)
    ensures var r := CommandsChecked(log, cmds);
            && |r.errors| >= |log.errors| && r.errors[..|log.errors|] == log.errors
            && (forall k :: |log.errors| <= k < |r.errors| ==> ReportsBadCommand(r.errors[k], cmds))
    decreases |cmds|
  {
    if cmds != [] {
      var n := |cmds|;
      var pre := cmds[..n - 1];
      CommandErrors(log, pre);
      var l := CommandsChecked(log, pre);
      var r := CommandsChecked(log, cmds);
      assert forall i :: 0 <= i < n - 1 ==> pre[i] == cmds[i];
      assert r.errors == l.errors || (r.errors == l.errors + [InvalidCommand(cmds[n - 1])] && BadCommand(cmds[n - 1]));
      assert r.errors[..|log.errors|] == l.errors[..|log.errors|];
      forall k | |log.errors| <= k < |r.errors|
        ensures ReportsBadCommand(r.errors[k], cmds)
      {
        if k < |l.errors| {
          var i :| 0 <= i < n - 1 && l.errors[k] == InvalidCommand(pre[i]) && BadCommand(pre[i]);
          assert r.errors[k] == InvalidCommand(cmds[i]);
        } else {
          assert r.errors[k] == InvalidCommand(cmds[n - 1]);
        }
      }
    }
  }

  /** Unless the rule threw, every contributed command without a truthy `command` or `title` is
      reported. */
  lemma {:induction false} BadCommandsCovered(log: Log, cmds: seq<JsValue>)
    ensures var r := CommandsChecked(log, cmds);
            !r.crashed ==> forall i :: 0 <= i < |cmds| && BadCommand(cmds[i]) ==> InvalidCommand(cmds[i]) in r.errors
    decreases |cmds|
  {
    if cmds != [] {
      var n := |cmds|;
      var pre := cmds[..n - 1];
      BadCommandsCovered(log, pre);
      var l := CommandsChecked(log, pre);
      var r := CommandsChecked(log, cmds);
      if !r.crashed {
        assert !l.crashed && !Nullish(cmds[n - 1]);
        assert r.errors == l.errors || r.errors == l.errors + [InvalidCommand(cmds[n - 1])];
        forall i | 0 <= i < n && BadCommand(cmds[i])
          ensures InvalidCommand(cmds[i]) in r.errors
        {
          if i < n - 1 {
            assert pre[i] == cmds[i];
          }
        }
      }
    }
  }

  /** `e` is the error the registration check reports for some entry of `cmds`. */
  predicate ReportsUnregistered(e: Issue, cmds: seq<JsValue>, registered: set<string>) {
    exists i :: 0 <= i < |cmds| && e == CommandNotRegistered(Field(cmds[i], "command")) && NotRegistered(cmds[i], registered)
  }

  /** The registration check keeps what was logged before, never warns or throws, and every
      error it adds names a contributed command whose truthy `command` is not a registered id. */
  lemma {:induction false} UnregisteredErrors(log: Log, cmds: seq<JsValue>, registered: set<string>)
    ensures var r := Unregistered(log, cmds, registered);
            && r.warnings == log.warnings && r.crashed == log.crashed
            && |r.errors| >= |log.errors| && r.errors[..|log.errors|] == log.errors
            && (forall k :: |log.errors| <= k < |r.errors| ==> ReportsUnregistered(r.errors[k], cmds, registered))
    decreases |cmds|
  {
    if cmds != [] {
      var n := |cmds|;
      var pre := cmds[..n - 1];
      UnregisteredErrors(log, pre, registered);
      var l := Unregistered(log, pre, registered);
      var r := Unregistered(log, cmds, registered);
      var added := CommandNotRegistered(Field(cmds[n - 1], "command"));
      assert r.errors == l.errors || (r.errors == l.errors + [added] && NotRegistered(cmds[n - 1], registered));
      assert r.errors[..|log.errors|] == l.errors[..|log.errors|];
      forall k | |log.errors| <= k < |r.errors|
        ensures ReportsUnregistered(r.errors[k], cmds, registered)
      {
        if k < |l.errors| {
          var i :| 0 <= i < n - 1 && l.errors[k] == CommandNotRegistered(Field(pre[i], "command"))
                   && NotRegistered(pre[i], registered);
          assert pre[i] == cmds[i];
          assert r.errors[k] == CommandNotRegistered(Field(cmds[i], "command"));
        } else {
          assert r.errors[k] == added;
        }
      }
    }
  }

  /** Every contributed command whose truthy `command` is not a registered id is reported. */
  lemma {:induction false} UnregisteredCovered(log: Log, cmds: seq<JsValue>, registered: set<string>)
    ensures var r := Unregistered(log, cmds, registered);
            forall i :: 0 <= i < |cmds| && NotRegistered(cmds[i], registered) ==>
              CommandNotRegistered(Field(cmds[i], "command")) in r.errors
    decreases |cmds|
  {
    if cmds != [] {
      var n := |cmds|;
      var pre := cmds[..n - 1];
      UnregisteredCovered(log, pre, registered);
      assert forall i :: 0 <= i < n - 1 ==> pre[i] == cmds[i];
    }
  }

  /** `e` is the error the view rule reports for some view of `views` in `container`. */
  predicate ReportsBadView(e: Issue, container: string, views: seq<JsValue>) {
    exists i :: 0 <= i < |views| && e == InvalidView(container, views[i]) && BadView(views[i])
  }

  /** Within one view container, one error per view without a truthy `id` or `name`, in order,
      and nothing for the others. */
  lemma {:induction false} ViewErrors(log: Log, container: string, views: seq<JsValue>)
    ensures var r := ViewsChecked(log, container, views);
            && r.warnings == log.warnings
            && |r.errors| >= |log.errors| && r.errors[..|log.errors|] == log.errors
            && (forall k :: |log.errors| <= k < |r.errors| ==> ReportsBadView(r.errors[k], container, views))
    decreases |views|
  {
    if views != [] {
      var n := |views|;
      var pre := views[..n - 1];
      ViewErrors(log, container, pre);
      var l := ViewsChecked(log, container, pre);
      var r := ViewsChecked(log, container, views);
      assert forall i :: 0 <= i < n - 1 ==> pre[i] == views[i];
      assert r.errors == l.errors || (r.errors == l.errors + [InvalidView(container, views[n - 1])] && BadView(views[n - 1]));
      assert r.errors[..|log.errors|] == l.errors[..|log.errors|];
      forall k | |log.errors| <= k < |r.errors|
        ensures ReportsBadView(r.errors[k], container, views)
      {
        if k < |l.errors| {
          var i :| 0 <= i < n - 1 && l.errors[k] == InvalidView(container, pre[i]) && BadView(pre[i]);
          assert r.errors[k] == InvalidView(container, views[i]);
        } else {
          assert r.errors[k] == InvalidView(container, views[n - 1]);
        }
      }
    }
  }

  /** Unless the rule threw, every view of the container without a truthy `id` or `name` is
      reported. */
  lemma {:induction false} BadViewsCovered(log: Log, container: string, views: seq<JsValue>)
    ensures var r := ViewsChecked(log, container, views);
            !r.crashed ==> forall i :: 0 <= i < |views| && BadView(views[i]) ==> InvalidView(container, views[i]) in r.errors
    decreases |views|
  {
    if views != [] {
      var n := |views|;
      var pre := views[..n - 1];
      BadViewsCovered(log, container, pre);
      var l := ViewsChecked(log, container, pre);
      var r := ViewsChecked(log, container, views);
      if !r.crashed {
        assert !l.crashed && !Nullish(views[n - 1]);
        assert r.errors == l.errors || r.errors == l.errors + [InvalidView(container, views[n - 1])];
        forall i | 0 <= i < n && BadView(views[i])
          ensures InvalidView(container, views[i]) in r.errors
        {
          if i < n - 1 {
            assert pre[i] == views[i];
          }
        }
      }
    }
  }

  /** `e` is the error the tree-view check reports for some view of `views` in `container`. */
  predicate ReportsUncreated(e: Issue, container: string, views: seq<JsValue>, created: set<string>) {
    exists i :: 0 <= i < |views| && e == ViewNotCreated(container, Field(views[i], "id")) && NotCreated(views[i], created)
  }

  /** The tree-view check of one container keeps what was logged before, never warns or
      throws, and every error it adds names the container and a view whose truthy `id` is not a
      created tree view. */
  lemma {:induction false} UncreatedViewErrors(log: Log, container: string, views: seq<JsValue>, created: set<string>)
    ensures var r := UncreatedViews(log, container, views, created);
            && r.warnings == log.warnings && r.crashed == log.crashed
            && |r.errors| >= |log.errors| && r.errors[..|log.errors|] == log.errors
            && (forall k :: |log.errors| <= k < |r.errors| ==> ReportsUncreated(r.errors[k], container, views, created))
    decreases |views|
  {
    if views != [] {
      var n := |views|;
      var pre := views[..n - 1];
      UncreatedViewErrors(log, container, pre, created);
      var l := UncreatedViews(log, container, pre, created);
      var r := UncreatedViews(log, container, views, created);
      var added := ViewNotCreated(container, Field(views[n - 1], "id"));
      assert r.errors == l.errors || (r.errors == l.errors + [added] && NotCreated(views[n - 1], created));
      assert r.errors[..|log.errors|] == l.errors[..|log.errors|];
      forall k | |log.errors| <= k < |r.errors|
        ensures ReportsUncreated(r.errors[k], container, views, created)
      {
        if k < |l.errors| {
          var i :| 0 <= i < n - 1 && l.errors[k] == ViewNotCreated(container, Field(pre[i], "id"))
                   && NotCreated(pre[i], created);
          assert pre[i] == views[i];
          assert r.errors[k] == ViewNotCreated(container, Field(views[i], "id"));
        } else {
          assert r.errors[k] == added;
        }
      }
    }
  }

  /** Every view of the container whose truthy `id` is not a created tree view is reported. */
  lemma {:induction false} UncreatedViewCovered(log: Log, container: string, views: seq<JsValue>, created: set<string>)
    ensures var r := UncreatedViews(log, container, views, created);
            forall i :: 0 <= i < |views| && NotCreated(views[i], created) ==>
              ViewNotCreated(container, Field(views[i], "id")) in r.errors
    decreases |views|
  {
    if views != [] {
      var n := |views|;
      var pre := views[..n - 1];
      UncreatedViewCovered(log, container, pre, created);
      assert forall i :: 0 <= i < n - 1 ==> pre[i] == views[i];
    }
  }

  /** `name` holds an "@": as a substring of a string, or as an element of an array. */
  predicate HasAtSign(name: JsValue) {
    (name.Str? && Text.Contains(name.s, "@")) || (name.Arr? && Str("@") in name.items)
  }

  /** The name rule never warns and adds at most one error, the "@" error, exactly when the name
      holds an "@"; it throws exactly for a name that is neither absent, a string nor an array. */
  lemma NameRuleEffect(log: Log, name: JsValue)
    ensures var r := NameRule(log, name);
            && r.warnings == log.warnings
            && (r.crashed <==> log.crashed || (!Nullish(name) && !name.Str? && !name.Arr?))
            && (r.errors == log.errors || r.errors == log.errors + [NameHasAt])
            && (r.errors == log.errors + [NameHasAt] <==> HasAtSign(name))
  {
  }

  /** The dependency rule only ever warns: it adds no error and never throws. */
  lemma {:induction false} DependenciesOnlyWarn(log: Log, deps: seq<Prop>)
    ensures var r := DependenciesChecked(log, deps);
            && r.errors == log.errors && r.crashed == log.crashed
            && |r.warnings| - |log.warnings| <= |deps|
    decreases |deps|
  {
    if deps != [] {
      DependenciesOnlyWarn(log, deps[..|deps| - 1]);
    }
  }

  /** The warning-only rules, the process checks among them, leave the errors and the exit code
      alone. */
  lemma WarningRulesKeepExitCode(log: Log, disk: Disk, icon: JsValue, events: JsValue, deps: JsValue, code: string, scans: Scans)
    requires !log.crashed
    ensures ExitCode(ActivationRule(log, events)) == ExitCode(log)
    ensures ExitCode(CommonIssues(log, disk)) == ExitCode(log)
    ensures ProcessChecks(log, code, scans).errors == log.errors
    ensures ExitCode(ProcessChecks(log, code, scans)) == ExitCode(log)
    ensures ExitCode(DependencyRules(log, deps)) == ExitCode(log)
    ensures !IconRule(log, disk, icon).crashed ==> IconRule(log, disk, icon).errors == log.errors
  {
    if Truthy(deps) {
      DependenciesOnlyWarn(log, Entries(deps));
    }
  }

  /** The validator's state: the module-level `errors` and `warnings` arrays, and whether a
      TypeError has ended the script. */
  class Validator {
    var errors: seq<Issue>
    var warnings: seq<Issue>
    var crashed: bool

    constructor ()
      ensures errors == [] && warnings == [] && !crashed
    {
      errors, warnings, crashed := [], [], false;
    }

    function Snapshot(): Log
      reads this
    {
      Log(errors, warnings, crashed)
    }

    method LogError(i: Issue)
      modifies this`errors
      ensures errors == old(errors) + [i]
    {
      errors := errors + [i];
    }

    method LogWarning(i: Issue)
      modifies this`warnings
      ensures warnings == old(warnings) + [i]
    {
      warnings := warnings + [i];
    }

    /** An uncaught TypeError. */
    method Throw()
      modifies this`crashed
      ensures crashed
    {
      crashed := true;
    }

    method ValidateFileStructure(disk: Disk) returns (ok: bool)
      modifies this`errors
      ensures Snapshot() == FileStructure(old(Snapshot()), disk, RequiredPaths) && ok
    {
      ghost var log0 := Snapshot();
      var i := 0;
      while i < |RequiredPaths|
        invariant 0 <= i <= |RequiredPaths|
        invariant Snapshot() == FileStructure(log0, disk, RequiredPaths[..i])
      {
        assert RequiredPaths[..i + 1][..i] == RequiredPaths[..i];
        if !disk.present(RequiredPaths[i]) {
          LogError(RequiredFileMissing(RequiredPaths[i]));
        }
        i := i + 1;
      }
      assert RequiredPaths[..i] == RequiredPaths;
      ok := true;
    }

    method ReadJsonFile(disk: Disk, parse: string -> Option<JsValue>, file: string) returns (v: Option<JsValue>)
      modifies this`errors
      ensures Loaded(Snapshot(), v) == ReadJson(old(Snapshot()), disk, parse, file)
    {
      var text := disk.read(file);
      if text.None? {
        LogError(Unparsable(file));
        return None;
      }
      v := parse(text.value);
      if v.None? {
        LogError(Unparsable(file));
      }
    }

    method ReadTextFile(disk: Disk, file: string) returns (t: Option<string>)
      modifies this`errors
      ensures Loaded(Snapshot(), t) == ReadText(old(Snapshot()), disk, file)
    {
      t := disk.read(file);
      if t.None? {
        LogError(Unreadable(file));
      }
    }

    method CheckFields(pkg: JsValue)
      modifies this`errors
      ensures Snapshot() == FieldsChecked(old(Snapshot()), pkg, RequiredFields)
    {
      ghost var log0 := Snapshot();
      var i := 0;
      while i < |RequiredFields|
        invariant 0 <= i <= |RequiredFields|
        invariant Snapshot() == FieldsChecked(log0, pkg, RequiredFields[..i])
      {
        assert RequiredFields[..i + 1][..i] == RequiredFields[..i];
        if !Truthy(Field(pkg, RequiredFields[i])) {
          LogError(MissingField(RequiredFields[i]));
        }
        i := i + 1;
      }
      assert RequiredFields[..i] == RequiredFields;
    }

    method CheckName(name: JsValue)
      modifies this
      ensures Snapshot() == NameRule(old(Snapshot()), name)
    {
      match name
      case Undefined =>
      case Null =>
      case Str(s) =>
        if Text.Contains(s, "@") {
          LogError(NameHasAt);
        }
      case Arr(items) =>
        if Str("@") in items {
          LogError(NameHasAt);
        }
      case _ =>
        Throw();
    }

    method CheckMainAndIcon(disk: Disk, main: JsValue, icon: JsValue)
      requires !crashed
      modifies this
      ensures var l := MainRule(old(Snapshot()), disk, main);
              Snapshot() == if l.crashed then l else IconRule(l, disk, icon)
    {
      if Truthy(main) {
        if !main.Str? {
          Throw();
          return;
        }
        if !disk.present(main.s) {
          LogError(MainNotFound(main.s));
        }
      }
      if Truthy(icon) {
        if !icon.Str? {
          Throw();
          return;
        }
        if !disk.present(icon.s) {
          LogWarning(IconNotFound(icon.s));
        }
      }
    }

    /** One contributed command: reading `command` of `null` or `undefined` throws. */
    method CheckCommand(cmd: JsValue)
      modifies this`errors, this`crashed
      ensures Snapshot() == CommandChecked(old(Snapshot()), cmd)
    {
      if Nullish(cmd) {
        Throw();
      } else if BadCommand(cmd) {
        LogError(InvalidCommand(cmd));
      }
    }

    /** One view of a container. */
    method CheckView(container: string, view: JsValue)
      modifies this`errors, this`crashed
      ensures Snapshot() == ViewChecked(old(Snapshot()), container, view)
    {
      if Nullish(view) {
        Throw();
      } else if BadView(view) {
        LogError(InvalidView(container, view));
      }
    }

    /** The loop over contributed commands; once an entry has thrown, the rest are not visited. */
    method CheckCommands(cmds: seq<JsValue>)
      modifies this
      ensures Snapshot() == CommandsChecked(old(Snapshot()), cmds)
    {
      ghost var log0 := Snapshot();
      var i := 0;
      while i < |cmds|
        invariant 0 <= i <= |cmds|
        invariant Snapshot() == CommandsChecked(log0, cmds[..i])
      {
        assert cmds[..i + 1][..i] == cmds[..i];
        if !crashed {
          CheckCommand(cmds[i]);
        }
        i := i + 1;
      }
      assert cmds[..i] == cmds;
    }

    method CheckViews(container: string, views: seq<JsValue>)
      modifies this
      ensures Snapshot() == ViewsChecked(old(Snapshot()), container, views)
    {
      ghost var log0 := Snapshot();
      var i := 0;
      while i < |views|
        invariant 0 <= i <= |views|
        invariant Snapshot() == ViewsChecked(log0, container, views[..i])
      {
        assert views[..i + 1][..i] == views[..i];
        if !crashed {
          CheckView(container, views[i]);
        }
        i := i + 1;
      }
      assert views[..i] == views;
    }

    method CheckContainers(containers: seq<Prop>)
      modifies this
      ensures Snapshot() == ContainersChecked(old(Snapshot()), containers)
    {
      ghost var log0 := Snapshot();
      var i := 0;
      while i < |containers|
        invariant 0 <= i <= |containers|
        invariant Snapshot() == ContainersChecked(log0, containers[..i])
      {
        assert containers[..i + 1][..i] == containers[..i];
        if !crashed {
          var views := Iterate(containers[i].value);
          if views.None? {
            Throw();
          } else {
            CheckViews(containers[i].key, views.value);
          }
        }
        i := i + 1;
      }
      assert containers[..i] == containers;
    }

    method CheckDependencies(deps: seq<Prop>)
      modifies this`warnings
      ensures Snapshot() == DependenciesChecked(old(Snapshot()), deps)
    {
      ghost var log0 := Snapshot();
      var i := 0;
      while i < |deps|
        invariant 0 <= i <= |deps|
        invariant Snapshot() == DependenciesChecked(log0, deps[..i])
      {
        assert deps[..i + 1][..i] == deps[..i];
        if LocalVersion(deps[i].value) {
          LogWarning(LocalDependency(deps[i].key));
        }
        i := i + 1;
      }
      assert deps[..i] == deps;
    }

    /** The rules after the required fields and the name. */
    method CheckContributes(pkg: JsValue)
      requires !crashed
      modifies this
      ensures var l := CommandRules(old(Snapshot()), Field(pkg, "contributes"));
              var l := if l.crashed then l else ViewRules(l, Field(pkg, "contributes"));
              var l := if l.crashed then l else ActivationRule(l, Field(pkg, "activationEvents"));
              Snapshot() == if l.crashed then l else DependencyRules(l, Field(pkg, "dependencies"))
    {
      var contributes := Field(pkg, "contributes");
      var cmds := Field(contributes, "commands");
      if Truthy(contributes) && cmds.Arr? {
        CheckCommands(cmds.items);
        if crashed {
          return;
        }
      } else {
        LogWarning(NoCommands);
      }
      var views := Field(contributes, "views");
      if Truthy(views) {
        CheckContainers(Entries(views));
        if crashed {
          return;
        }
      } else {
        LogWarning(NoViews);
      }
      var events := Field(pkg, "activationEvents");
      if !events.Arr? || events.items == [] {
        LogWarning(NoActivationEvents);
      }
      var deps := Field(pkg, "dependencies");
      if Truthy(deps) {
        CheckDependencies(Entries(deps));
      }
    }

    /** `validatePackageJson`. */
    method ValidatePackageJson(disk: Disk, parse: string -> Option<JsValue>) returns (ok: bool)
      requires !crashed
      modifies this
      ensures Checked(Snapshot(), ok) == PackageJson(old(Snapshot()), disk, parse)
    {
      if !disk.present(PackageFile) {
        LogError(PackageJsonNotFound);
        return false;
      }
      var pkg := ReadJsonFile(disk, parse, PackageFile);
      if pkg.None? || !Truthy(pkg.value) {
        return false;
      }
      ok := true;
      CheckFields(pkg.value);
      CheckName(Field(pkg.value, "name"));
      if crashed {
        return;
      }
      CheckMainAndIcon(disk, Field(pkg.value, "main"), Field(pkg.value, "icon"));
      if crashed {
        return;
      }
      CheckContributes(pkg.value);
    }

    /** `validateExtensionEntrypoint`. */
    method ValidateExtensionEntrypoint(disk: Disk) returns (ok: bool)
      modifies this`errors, this`warnings
      ensures Checked(Snapshot(), ok) == Entrypoint(old(Snapshot()), disk)
    {
      var content := ReadTextFile(disk, MainFile);
      if content.None? || content.value == "" {
        return false;
      }
      if !Text.Contains(content.value, "module.exports") {
        LogError(NoExports);
      }
      if !Text.Contains(content.value, "require(\"./src/extension\")") && !Text.Contains(content.value, "require('./src/extension')") {
        LogWarning(NoDelegation);
      }
      ok := true;
    }

    /** `getAllSourceText`: read the source files in turn, join the non-empty texts with "\n". */
    method GetAllSourceText(disk: Disk) returns (code: string)
      modifies this`errors
      ensures Loaded(Snapshot(), code) == SourceText(old(Snapshot()), disk)
    {
      ghost var log0 := Snapshot();
      var paths := SourceFiles(disk);
      var contents: seq<string> := [];
      var i := 0;
      while i < |paths|
        invariant 0 <= i <= |paths|
        invariant Loaded(Snapshot(), contents) == ReadAll(log0, disk, paths[..i])
      {
        assert paths[..i + 1][..i] == paths[..i];
        var text := ReadTextFile(disk, paths[i]);
        if text.Some? && text.value != "" {
          contents := contents + [text.value];
        }
        i := i + 1;
      }
      assert paths[..i] == paths;
      code := Text.Join(contents, "\n");
    }

    method ReportUnregistered(cmds: seq<JsValue>, registered: set<string>)
      modifies this`errors
      ensures Snapshot() == Unregistered(old(Snapshot()), cmds, registered)
    {
      ghost var log0 := Snapshot();
      var i := 0;
      while i < |cmds|
        invariant 0 <= i <= |cmds|
        invariant Snapshot() == Unregistered(log0, cmds[..i], registered)
      {
        assert cmds[..i + 1][..i] == cmds[..i];
        if NotRegistered(cmds[i], registered) {
          LogError(CommandNotRegistered(Field(cmds[i], "command")));
        }
        i := i + 1;
      }
      assert cmds[..i] == cmds;
    }

    method ReportUncreatedViews(container: string, views: seq<JsValue>, created: set<string>)
      modifies this`errors
      ensures Snapshot() == UncreatedViews(old(Snapshot()), container, views, created)
    {
      ghost var log0 := Snapshot();
      var i := 0;
      while i < |views|
        invariant 0 <= i <= |views|
        invariant Snapshot() == UncreatedViews(log0, container, views[..i], created)
      {
        assert views[..i + 1][..i] == views[..i];
        if NotCreated(views[i], created) {
          LogError(ViewNotCreated(container, Field(views[i], "id")));
        }
        i := i + 1;
      }
      assert views[..i] == views;
    }

    method ReportUncreated(containers: seq<Prop>, created: set<string>)
      modifies this
      ensures Snapshot() == Uncreated(old(Snapshot()), containers, created)
    {
      ghost var log0 := Snapshot();
      var i := 0;
      while i < |containers|
        invariant 0 <= i <= |containers|
        invariant Snapshot() == Uncreated(log0, containers[..i], created)
      {
        assert containers[..i + 1][..i] == containers[..i];
        if !crashed {
          var views := Iterate(containers[i].value);
          if views.None? {
            Throw();
          } else {
            ReportUncreatedViews(containers[i].key, views.value, created);
          }
        }
        i := i + 1;
      }
      assert containers[..i] == containers;
    }

    /** `validateContributionsMatchCode`. */
    method ValidateContributionsMatchCode(disk: Disk, parse: string -> Option<JsValue>, scans: Scans) returns (ok: bool)
      modifies this
      ensures Checked(Snapshot(), ok) == Contributions(old(Snapshot()), disk, parse, scans)
    {
      var pkg := ReadJsonFile(disk, parse, PackageFile);
      if pkg.None? || !Truthy(pkg.value) {
        return false;
      }
      var code := GetAllSourceText(disk);
      var registered := ExtractRegisteredCommands(code, scans);
      var created := ExtractCreatedTreeViews(code, scans);
      var contributes := Field(pkg.value, "contributes");
      var cmds := Field(contributes, "commands");
      ReportUnregistered(if Truthy(contributes) && cmds.Arr? then cmds.items else [], registered);
      var views := Field(contributes, "views");
      ReportUncreated(if Truthy(views) then Entries(views) else [], created);
      ok := true;
    }

    method CheckServerReferences(code: string)
      modifies this`errors, this`warnings
      ensures Snapshot() == ServerChecks(old(Snapshot()), code)
    {
      if !Text.Contains(code, "9853") {
        LogError(PortMissing);
      }
      if !(Text.Contains(code, "http://localhost:9853") || (Text.Contains(code, "MCP_SHARK_BASE_URL") && Text.Contains(code, "9853"))) {
        LogWarning(BaseUrlMissing);
      }
      if !Text.Contains(code, "@mcp-shark/mcp-shark") {
        LogError(PackageNotReferenced);
      }
    }

    method CheckProcessHandling(code: string, scans: Scans)
      modifies this`warnings
      ensures Snapshot() == ProcessChecks(old(Snapshot()), code, scans)
    {
      if !scans.spawnsNpx(code) {
        LogWarning(NoNpxSpawn);
      }
      if !(Text.Contains(code, "['-y'") || Text.Contains(code, "[\"-y\"") || Text.Contains(code, "\" -y\"") || Text.Contains(code, "' -y'")) {
        LogWarning(NoAutoYes);
      }
      if !Text.Contains(code, "kill -TERM") && !Text.Contains(code, "taskkill /PID") {
        LogWarning(NoSigterm);
      }
    }

    /** `validateMcpSharkIntegration`. */
    method ValidateMcpSharkIntegration(disk: Disk, scans: Scans) returns (ok: bool)
      modifies this`errors, this`warnings
      ensures Snapshot() == Integration(old(Snapshot()), disk, scans) && ok
    {
      var code := GetAllSourceText(disk);
      CheckServerReferences(code);
      CheckProcessHandling(code, scans);
      ok := true;
    }

    /** `checkCommonIssues`. */
    method CheckCommonIssues(disk: Disk) returns (ok: bool)
      modifies this`warnings
      ensures Snapshot() == CommonIssues(old(Snapshot()), disk) && ok
    {
      if !disk.present("node_modules") {
        LogWarning(NoNodeModules);
      }
      if !disk.present(".vscodeignore") {
        LogWarning(NoVscodeIgnore);
      }
      if !disk.present("README.md") {
        LogWarning(NoReadme);
      }
      ok := true;
    }

    /** The steps of `runValidation` after the manifest checks. */
    method RunRemainingSteps(disk: Disk, parse: string -> Option<JsValue>, scans: Scans)
      modifies this
      ensures Snapshot() == ValidationRest(old(Snapshot()), disk, parse, scans)
    {
      var _ := ValidateExtensionEntrypoint(disk);
      var _ := ValidateContributionsMatchCode(disk, parse, scans);
      if crashed {
        return;
      }
      var _ := ValidateMcpSharkIntegration(disk, scans);
      var _ := CheckCommonIssues(disk);
    }

    /** `runValidation`: every step in order, then exit 0 exactly when no error was logged. An
        uncaught TypeError ends the script with exit code 1. */
    method RunValidation(disk: Disk, parse: string -> Option<JsValue>, scans: Scans) returns (exitCode: int)
      requires errors == [] && warnings == [] && !crashed
      modifies this
      ensures Snapshot() == Validation(disk, parse, scans)
      ensures exitCode == ExitCode(Snapshot())
      ensures exitCode == 0 <==> !crashed && errors == []
    {
      var _ := ValidateFileStructure(disk);
      var _ := ValidatePackageJson(disk, parse);
      if crashed {
        return 1;
      }
      RunRemainingSteps(disk, parse, scans);
      if crashed {
        return 1;
      }
      exitCode := if errors == [] then 0 else 1;
    }
  }
}
