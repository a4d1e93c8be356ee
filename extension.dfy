/**
 * The `vscode-hygen.generate` command: find the workspace folder holding the
 * destination, load the template catalog, let the user pick a template and
 * action and enter a name, then hand everything to hygen's runner.
 *
 * Every call into the editor or into hygen is a supplied reply (`Host`); the
 * messages the command shows are part of its `Outcome`.
 */
module Extension {
  import opened Wrappers
  import opened Strings

  const NoDestinationMessage: string :=
    "Failed to determine destination, please use the context menu in the file explorer."
  const NoWorkspaceMessage: string :=
    "Hygen doesn't have a workspace to analyze for generators. Please open a folder."
  const CalledDirectlyMessage: string :=
    "The \"Hygen\" command cannot be called directly, please use the context menu in the file explorer"
  const NoTemplatesMessage: string :=
    "Failed to locate template directory, did you initialize Hygen in this workspace?"
  const GenerateFailedMessage: string := "Failed to generate template"

  /** The directory `getTemplates` falls back to when resolve names none. */
  const DefaultTemplates: string := "_templates"

  /** `path.join` of two segments. */
  function Join(directory: string, segment: string): string
  {
    directory + "/" + segment
  }

  /* ---------------- workspace lookup ---------------- */

  /** A workspace folder, by the path of its URI. */
  datatype Folder = Folder(path: string)

  /** The position of the first folder whose path the destination starts with. */
  function FirstMatch(folders: seq<Folder>, destination: string): (r: Option<nat>)
    ensures r.Some? ==> r.value < |folders| && StartsWith(destination, folders[r.value].path)
    ensures r.Some? ==> forall j :: 0 <= j < r.value ==> !StartsWith(destination, folders[j].path)
    ensures r.None? ==> forall j :: 0 <= j < |folders| ==> !StartsWith(destination, folders[j].path)
  {
    if folders == [] then None
    else if StartsWith(destination, folders[0].path) then Some(0)
    else
      match FirstMatch(folders[1..], destination)
      case None => None
      case Some(i) => Some(i + 1)
  }

  /** `workspaceFolders.find(({ uri }) => destination.startsWith(uri.path))` */
  function FindWorkspace(folders: seq<Folder>, destination: string): (r: Option<Folder>)
    ensures r.None? <==> forall j :: 0 <= j < |folders| ==> !StartsWith(destination, folders[j].path)
    ensures r.Some? ==> exists i :: 0 <= i < |folders| && folders[i] == r.value && StartsWith(destination, r.value.path) &&
                                     forall j :: 0 <= j < i ==> !StartsWith(destination, folders[j].path)
  {
    match FirstMatch(folders, destination)
    case None => None
    case Some(i) => Some(folders[i])
  }

  /** The lookup compares raw strings, so a folder matches a sibling sharing its prefix. */
  lemma WorkspaceExamples()
    ensures FindWorkspace([Folder("/a"), Folder("/b/c")], "/b/c/d/file.ts") == Some(Folder("/b/c"))
    ensures FindWorkspace([Folder("/a"), Folder("/b/c")], "/z/file.ts") == None
    ensures FindWorkspace([Folder("/a")], "/ab/x") == Some(Folder("/a"))
  {
    assert "/b/c/d/file.ts"[1] == 'b' && "/z/file.ts"[1] == 'z';
  }

  /* ---------------- catalog and selection ---------------- */

  /** One template of the catalog with its actions, in the catalog's order. */
  datatype Entry = Entry(template: string, actions: seq<string>)

  /** The record `availableActions` returns, in `Object.keys` order. */
  type Catalog = seq<Entry>

  /** One entry of the template/action quick pick; `caption` is its `label` (a word Dafny reserves). */
  datatype MenuOption = MenuOption(caption: string, template: string, action: string)

  /** What `promptForTemplateAction` gives back. */
  datatype TemplateAction = TemplateAction(template: string, action: string)

  function Label(template: string, action: string): string
  {
    template + " " + action
  }

  function TotalActions(catalog: Catalog): nat
  {
    if catalog == [] then 0 else |catalog[0].actions| + TotalActions(catalog[1..])
  }

  /** Where the options of the `k`-th template start in the flattened list. */
  function Offset(catalog: Catalog, k: nat): nat
    requires k <= |catalog|
  {
    if k == 0 then 0 else |catalog[0].actions| + Offset(catalog[1..], k - 1)
  }

  /** The options of one template, one per action, in action order. */
  function OptionsOf(e: Entry): seq<MenuOption>
  {
    seq(|e.actions|, j requires 0 <= j < |e.actions| => MenuOption(Label(e.template, e.actions[j]), e.template, e.actions[j]))
  }

  /** The menu: every template's options, concatenated in catalog order. */
  function Flatten(catalog: Catalog): (options: seq<MenuOption>)
    ensures |options| == TotalActions(catalog)
    ensures forall o :: o in options ==> o.caption == Label(o.template, o.action)
  {
    if catalog == [] then [] else OptionsOf(catalog[0]) + Flatten(catalog[1..])
  }

  /** The option for action `j` of template `k` sits at `Offset(k) + j`. */
  lemma {:induction false} FlattenAt(catalog: Catalog, k: nat, j: nat)
    requires k < |catalog| && j < |catalog[k].actions|
    ensures Offset(catalog, k) + j < |Flatten(catalog)|
    ensures Flatten(catalog)[Offset(catalog, k) + j] ==
      MenuOption(Label(catalog[k].template, catalog[k].actions[j]), catalog[k].template, catalog[k].actions[j])
    decreases k
  {
    var head := OptionsOf(catalog[0]);
    assert Flatten(catalog) == head + Flatten(catalog[1..]);
    if k == 0 {
      assert Flatten(catalog)[j] == head[j];
    } else {
      assert catalog[1..][k - 1] == catalog[k];
      FlattenAt(catalog[1..], k - 1, j);
      assert Flatten(catalog)[Offset(catalog, k) + j] == Flatten(catalog[1..])[Offset(catalog[1..], k - 1) + j];
    }
  }

  /** Every option of the menu comes from one (template, action) pair of the catalog. */
  lemma {:induction false} FlattenFrom(catalog: Catalog, o: MenuOption)
    requires o in Flatten(catalog)
    ensures exists k, j :: (0 <= k < |catalog| && 0 <= j < |catalog[k].actions| &&
                            o.template == catalog[k].template && o.action == catalog[k].actions[j])
    decreases |catalog|
  {
    if o in OptionsOf(catalog[0]) {
      var j :| 0 <= j < |catalog[0].actions| && OptionsOf(catalog[0])[j] == o;
      assert o.template == catalog[0].template && o.action == catalog[0].actions[j];
    } else {
      FlattenFrom(catalog[1..], o);
      var k, j :| 0 <= k < |catalog[1..]| && 0 <= j < |catalog[1..][k].actions| &&
        o.template == catalog[1..][k].template && o.action == catalog[1..][k].actions[j];
      assert catalog[1..][k] == catalog[k + 1];
    }
  }

  /** Every menu position is `Offset(k) + j` for one (template, action) pair, whose option sits there. */
  lemma {:induction false} FlattenIndex(catalog: Catalog, i: nat) returns (k: nat, j: nat)
    requires i < |Flatten(catalog)|
    ensures k < |catalog| && j < |catalog[k].actions| && i == Offset(catalog, k) + j
    ensures Flatten(catalog)[i] ==
      MenuOption(Label(catalog[k].template, catalog[k].actions[j]), catalog[k].template, catalog[k].actions[j])
    decreases |catalog|
  {
    if i < |catalog[0].actions| {
      k, j := 0, i;
    } else {
      var k', j' := FlattenIndex(catalog[1..], i - |catalog[0].actions|);
      k, j := k' + 1, j';
    }
    FlattenAt(catalog, k, j);
  }

  /** The pair behind the option the user picked, or nothing when the menu was dismissed. */
  function SelectTemplateAction(catalog: Catalog, chosen: Option<nat>): (r: Option<TemplateAction>)
    requires chosen.Some? ==> chosen.value < |Flatten(catalog)|
    ensures r.None? <==> chosen.None?
    ensures r.Some? ==> r.value.template == Flatten(catalog)[chosen.value].template &&
                        r.value.action == Flatten(catalog)[chosen.value].action
    ensures r.Some? ==> exists k, j :: (0 <= k < |catalog| && 0 <= j < |catalog[k].actions| &&
                                        r.value == TemplateAction(catalog[k].template, catalog[k].actions[j]))
  {
    match chosen
    case None => None
    case Some(i) =>
      var o := Flatten(catalog)[i];
      FlattenFrom(catalog, o);
      Some(TemplateAction(o.template, o.action))
  }

  /** Picking the option of a pair gives back exactly that pair. */
  lemma SelectRoundTrip(catalog: Catalog, k: nat, j: nat)
    requires k < |catalog| && j < |catalog[k].actions|
    ensures Offset(catalog, k) + j < |Flatten(catalog)|
    ensures SelectTemplateAction(catalog, Some(Offset(catalog, k) + j)) ==
      Some(TemplateAction(catalog[k].template, catalog[k].actions[j]))
  {
    FlattenAt(catalog, k, j);
    var o := Flatten(catalog)[Offset(catalog, k) + j];
    assert o.template == catalog[k].template && o.action == catalog[k].actions[j];
  }

  /** Picking any menu position gives back the pair of the option at that position. */
  lemma SelectAt(catalog: Catalog, i: nat) returns (k: nat, j: nat)
    requires i < |Flatten(catalog)|
    ensures k < |catalog| && j < |catalog[k].actions| && i == Offset(catalog, k) + j
    ensures SelectTemplateAction(catalog, Some(i)) == Some(TemplateAction(catalog[k].template, catalog[k].actions[j]))
  {
    k, j := FlattenIndex(catalog, i);
  }

  /* ---------------- template loading ---------------- */

  /** The options passed to hygen's `resolve`. */
  datatype ResolveRequest = ResolveRequest(templates: string, cwd: string)

  /** What `resolve` did: threw, or returned a `templates` path that may be missing or empty. */
  datatype ResolveReply = ResolveThrew | Resolved(templates: Option<string>)

  /** What `availableActions` did: threw, or listed the catalog. */
  datatype ActionsReply = ActionsThrew | Listed(catalog: Catalog)

  /** What `getTemplates` ends with: the catalog, or its message shown and the error rethrown. */
  datatype Loaded = Loaded(catalog: Catalog) | LoadFailed

  /** `resolve` is asked about `<directory>/templates`, from the directory itself. */
  function ResolveRequestFor(directory: string): ResolveRequest
  {
    ResolveRequest(Join(directory, "templates"), directory)
  }

  /** `templates || '_templates'`: a missing or empty path falls back to the default. */
  function ActionsDirectory(templates: Option<string>): (d: string)
    ensures templates.None? || templates == Some("") ==> d == DefaultTemplates
    ensures templates.Some? && templates.value != "" ==> d == templates.value
  {
    match templates
    case Some(t) => if t == "" then DefaultTemplates else t
    case None => DefaultTemplates
  }

  /** `getTemplates`: either call may throw, and both failures end the same way. */
  function GetTemplates(directory: string, resolve: ResolveRequest -> ResolveReply,
                        availableActions: string -> ActionsReply): (r: Loaded)
    ensures var reply := resolve(ResolveRequestFor(directory));
      r.LoadFailed? <==> reply.ResolveThrew? || availableActions(ActionsDirectory(reply.templates)).ActionsThrew?
    ensures var reply := resolve(ResolveRequestFor(directory));
      r.Loaded? ==> r.catalog == availableActions(ActionsDirectory(reply.templates)).catalog
  {
    match resolve(ResolveRequestFor(directory))
    case ResolveThrew => LoadFailed
    case Resolved(templates) =>
      match availableActions(ActionsDirectory(templates))
      case ActionsThrew => LoadFailed
      case Listed(catalog) => Loaded(catalog)
  }

  /* ---------------- generation ---------------- */

  /**
   * The arguments and options hygen's `runner` is given.  The `logger` and
   * `createPrompter` options are recorded only as present: `logsToConsole`
   * for a logger writing to the console, `suppliesPrompter` for a factory
   * of fresh `Prompter`s.
   */
  datatype RunnerCall = RunnerCall(args: seq<string>, templates: string, cwd: string, debug: bool,
                                   logsToConsole: bool, suppliesPrompter: bool)

  /** What `runner` did: reported success, reported failure, or threw. */
  datatype RunReply = Succeeded | Unsuccessful | RunThrew

  /** The runner call made and the message shown after it, if any. */
  datatype Generation = Generation(call: RunnerCall, message: Option<string>)

  /** `generate`: one runner call; any failure ends in the one generic message. */
  function Generate(rootDirectory: string, destination: string, template: string, action: string,
                    name: string, runner: RunnerCall -> RunReply): (g: Generation)
    ensures g.call.args == [template, action, name]
    ensures g.call.templates == Join(rootDirectory, DefaultTemplates)
    ensures g.call.cwd == destination && !g.call.debug
    ensures g.call.logsToConsole && g.call.suppliesPrompter
    ensures g.message.None? <==> runner(g.call).Succeeded?
    ensures g.message.Some? ==> g.message.value == GenerateFailedMessage
  {
    var call := RunnerCall([template, action, name], Join(rootDirectory, DefaultTemplates), destination,
                           false, true, true);
    match runner(call)
    case Succeeded => Generation(call, None)
    case Unsuccessful => Generation(call, Some(GenerateFailedMessage))
    case RunThrew => Generation(call, Some(GenerateFailedMessage))
  }

  /* ---------------- the command ---------------- */

  /** The argument the command is invoked with: its `path`, when it has one. */
  datatype Event = Event(path: Option<string>)

  /** The editor and hygen, as the replies they give. */
  datatype Host = Host(
    folders: seq<Folder>,                          // workspace folders at activation
    resolve: ResolveRequest -> ResolveReply,       // hygen's resolve
    availableActions: string -> ActionsReply,      // hygen's availableActions
    pick: seq<MenuOption> -> Option<nat>,          // the template/action quick pick
    name: Option<string>,                          // the 'Name' input box
    runner: RunnerCall -> RunReply)                // hygen's runner

  /** A quick pick only ever returns one of the options it was shown. */
  ghost predicate PicksFromMenu(host: Host)
  {
    forall menu :: host.pick(menu).Some? ==> host.pick(menu).value < |menu|
  }

  /** How one invocation of the command ends. */
  datatype Outcome =
    | Reported(message: string)      // an error message is shown and the handler returns
    | Rethrown(message: string)      // getTemplates' message is shown and its error propagates
    | Aborted                        // silent end: the pick or the name was cancelled
    | Ran(generation: Generation)    // the runner was called

  predicate HasDestination(event: Option<Event>)
  {
    event.Some? && event.value.path.Some? && event.value.path.value != ""
  }

  /** The templates of the matched workspace folder fail to load. */
  predicate LoadFails(event: Option<Event>, host: Host)
  {
    HasDestination(event) &&
    var folder := FindWorkspace(host.folders, event.value.path.value);
    folder.Some? && GetTemplates(folder.value.path, host.resolve, host.availableActions).LoadFailed?
  }

  /** The templates load, and then the menu is dismissed or the name is dismissed or empty. */
  predicate Cancels(event: Option<Event>, host: Host)
  {
    HasDestination(event) &&
    var folder := FindWorkspace(host.folders, event.value.path.value);
    folder.Some? &&
    var loaded := GetTemplates(folder.value.path, host.resolve, host.availableActions);
    loaded.Loaded? &&
    (host.pick(Flatten(loaded.catalog)).None? || host.name.None? || host.name == Some(""))
  }

  /**
   * The steps after a successful load: the template/action menu, the name
   * box, and `generate` when both were answered.
   */
  function PickAndGenerate(root: string, destination: string, catalog: Catalog, host: Host): (r: Outcome)
    requires PicksFromMenu(host)
    ensures r.Aborted? || r.Ran?
    ensures r.Aborted? <==> host.pick(Flatten(catalog)).None? || host.name.None? || host.name == Some("")
    ensures r.Ran? ==> r.generation.call.cwd == destination && host.name.Some? && host.name.value != ""
  {
    match SelectTemplateAction(catalog, host.pick(Flatten(catalog)))
    case None => Aborted
    case Some(chosen) =>
      match host.name
      case None => Aborted
      case Some(name) =>
        if name == "" then Aborted
        else Ran(Generate(root, destination, chosen.template, chosen.action, name, host.runner))
  }

  /** The registered command handler, from its event to how it ends. */
  function Handle(event: Option<Event>, host: Host): (r: Outcome)
    requires PicksFromMenu(host)
    ensures r != Reported(CalledDirectlyMessage)
    ensures r == Reported(NoDestinationMessage) <==> !HasDestination(event)
    ensures r == Reported(NoWorkspaceMessage) <==>
      HasDestination(event) && FindWorkspace(host.folders, event.value.path.value).None?
    ensures r.Rethrown? ==> r.message == NoTemplatesMessage
    ensures r.Rethrown? <==> LoadFails(event, host)
    ensures r.Aborted? <==> Cancels(event, host)
    ensures r.Ran? ==> HasDestination(event) && r.generation.call.cwd == event.value.path.value
    ensures r.Ran? ==> host.name.Some? && host.name.value != ""
  {
    if !HasDestination(event) then Reported(NoDestinationMessage)
    else
      var destination := event.value.path.value;
      match FindWorkspace(host.folders, destination)
      case None => Reported(NoWorkspaceMessage)
      case Some(folder) =>
        var root := folder.path;
        if destination == "" then Reported(CalledDirectlyMessage)
        else
          match GetTemplates(root, host.resolve, host.availableActions)
          case LoadFailed => Rethrown(NoTemplatesMessage)
          case Loaded(catalog) => PickAndGenerate(root, destination, catalog, host)
  }

  /** A failed template load ends the command before the menu or the name box is used. */
  lemma LoadFailureIgnoresLaterReplies(event: Option<Event>, host: Host,
                                       pick: seq<MenuOption> -> Option<nat>, name: Option<string>,
                                       runner: RunnerCall -> RunReply)
    requires PicksFromMenu(host) && HasDestination(event)
    requires FindWorkspace(host.folders, event.value.path.value).Some?
    requires GetTemplates(FindWorkspace(host.folders, event.value.path.value).value.path,
                          host.resolve, host.availableActions).LoadFailed?
    requires forall menu :: pick(menu).Some? ==> pick(menu).value < |menu|
    ensures PicksFromMenu(host.(pick := pick, name := name, runner := runner))
    ensures Handle(event, host) == Rethrown(NoTemplatesMessage)
    ensures Handle(event, host.(pick := pick, name := name, runner := runner)) == Handle(event, host)
  {
  }

  /** Once the templates have loaded, picking a pair's option and naming it runs that pair. */
  lemma PickRuns(root: string, destination: string, catalog: Catalog, host: Host, i: nat) returns (k: nat, j: nat)
    requires PicksFromMenu(host)
    requires host.pick(Flatten(catalog)) == Some(i)
    requires host.name.Some? && host.name.value != ""
    ensures k < |catalog| && j < |catalog[k].actions| && i == Offset(catalog, k) + j
    ensures PickAndGenerate(root, destination, catalog, host) ==
      Ran(Generate(root, destination, catalog[k].template, catalog[k].actions[j], host.name.value, host.runner))
  {
    k, j := SelectAt(catalog, i);
  }

  /**
   * When every step goes through, the runner receives the pair of the picked
   * option and the name, the templates directory of the matched folder and
   * the destination.
   */
  lemma HandleRuns(event: Option<Event>, host: Host, root: string, catalog: Catalog, i: nat) returns (k: nat, j: nat)
    requires PicksFromMenu(host) && HasDestination(event)
    requires FindWorkspace(host.folders, event.value.path.value) == Some(Folder(root))
    requires GetTemplates(root, host.resolve, host.availableActions) == Loaded(catalog)
    requires host.pick(Flatten(catalog)) == Some(i)
    requires host.name.Some? && host.name.value != ""
    ensures k < |catalog| && j < |catalog[k].actions| && i == Offset(catalog, k) + j
    ensures Handle(event, host).Ran?
    ensures Handle(event, host).generation.call.args == [catalog[k].template, catalog[k].actions[j], host.name.value]
    ensures Handle(event, host).generation.call.templates == Join(root, DefaultTemplates)
    ensures Handle(event, host).generation.call.cwd == event.value.path.value
  {
    k, j := PickRuns(root, event.value.path.value, catalog, host, i);
  }

  /** A dismissed menu, or a dismissed or empty name, ends the command silently. */
  lemma CancelAborts(event: Option<Event>, host: Host)
    requires PicksFromMenu(host) && Cancels(event, host)
    ensures Handle(event, host) == Aborted
  {
  }
}
