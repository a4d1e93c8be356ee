# hygen-vscode, modelled in Dafny

hygen-vscode is a VS Code extension that runs the `hygen` code generator from
the file explorer's context menu. Its one command, `vscode-hygen.generate`,
does five things. It finds the workspace folder holding the clicked path. It
asks hygen for the template catalog. It lets the user pick a template and
action and type a name. Then it calls hygen's runner. The extension also gives
the runner a prompter, which answers hygen's interactive questions through
input boxes and quick picks.

The model has three modules:

- `Wrappers` (`wrappers.dfy`): `Option`, which stands for JavaScript's
  `undefined`.
- `Prompter` (`prompter.dfy`, from `src/prompter.ts`): the `Prompt` sum type,
  the three handlers, and `Ask`. `Ask` is the `prompt` method, written as a
  loop that fills the answer map in place. It is proved against the
  specification function `AnswersOf`. The `Prompter` class holds no state, so
  its one method is a method of the module.
- `Extension` (`extension.dfy`, from `src/extension.ts`): the workspace
  lookup, the flattening of the catalog into the quick-pick menu and the
  selection from it, `getTemplates`, `generate`, and the command handler
  `Handle`. `Handle` is a function from the command's event and the host's
  replies to an `Outcome`. The outcome is one of: an error message shown, an
  error message shown and rethrown, a silent end, or a runner call followed by
  an optional failure message.

The editor and hygen are oracles. What the user does with an input box or a
quick pick is a supplied `Response`, or a field of `Host`. hygen's `resolve`,
`availableActions` and `runner` are supplied functions from the request the
extension makes to the reply it gets back. Each reply either returns a value
or throws.

The model follows the code where a reader might expect otherwise. A confirm
prompt answered with `n` yields `false`, not "absent": only an empty or
dismissed box yields no answer. Likewise, a list prompt's answer is the label
of the chosen item, and the quick pick's labels are the choices themselves.

## Model

| member | source | states |
|---|---|---|
| `Prompter.HandleConfirm` | src/prompter.ts:3-18 | No answer exactly when the box is dismissed or left empty. `true` exactly when the text starts with `y` or `Y`. `false` exactly for any other non-empty text. |
| `Prompter.ConfirmExamples` | src/prompter.ts:3-18 | `y`, `Yes` and `yep` give `true`. The untouched default `no`, and `n`, give `false`. Empty or dismissed gives no answer. |
| `Prompter.HandleInput` | src/prompter.ts:20-26 | The entered text comes back unchanged. A dismissed box, and only that, gives no answer. |
| `Prompter.EmptyTextDiffers` | src/prompter.ts:9-25 | An empty value is an answer (`""`) for an input prompt but no answer for a confirm prompt. |
| `Prompter.PickItems` | src/prompter.ts:30 | One quick-pick item per choice, in order, each labelled by its choice. |
| `Prompter.HandleList` | src/prompter.ts:28-38 | Dismissing gives no answer. Otherwise the answer is the chosen choice, which is always one of `choices`. |
| `Prompter.Normalize` | src/prompter.ts:62 | A lone prompt becomes a one-element batch. An array is used as given. |
| `Prompter.Ask` | src/prompter.ts:61-77 | The loop yields exactly `AnswersOf` the normalised batch: prompts are handled in order, each writing only its own name. Its key set is the names of the confirm, input and list prompts. |
| `Prompter.AnswerKeys` | src/prompter.ts:65-74 | The keys of the answer map are exactly the names of the handled prompts. A prompt of any other type adds no key. |
| `Prompter.LastWins` | src/prompter.ts:65-74 | The value under a name is the answer of the last handled prompt with that name. A later duplicate overwrites an earlier one. |
| `Prompter.DistinctNamesGiveOneKeyEach` | src/prompter.ts:63-76 | N handled prompts with distinct names give exactly N keys, each holding its own prompt's answer. |
| `Prompter.UnsupportedAddsNothing` | src/prompter.ts:66-73 | Appending a prompt whose type is not confirm, input or list leaves the answer map unchanged. |
| `Prompter.ListExample` | src/prompter.ts:28-38 | A lone list prompt with choices a, b, c gives `{name: "b"}` when b is chosen. It gives `{name: undefined}` when the menu is dismissed. |
| `Extension.FirstMatch` | src/extension.ts:18 | The index found is that of a folder whose path is a prefix of the destination, and no earlier folder is one. With no index, no folder's path is a prefix. |
| `Extension.FindWorkspace` | src/extension.ts:18 | Returns nothing exactly when no folder matches. Otherwise returns the first matching folder in list order. |
| `Extension.WorkspaceExamples` | src/extension.ts:18 | With roots `/a` and `/b/c`, the destination `/b/c/d/file.ts` gives `/b/c` and `/z/file.ts` gives nothing. The raw prefix test lets `/a` match `/ab/x`. |
| `Extension.Flatten` | src/extension.ts:80-89 | The menu has as many options as there are actions in all templates combined. Every option's label is `template + " " + action`. |
| `Extension.FlattenAt` | src/extension.ts:80-89 | Action `j` of template `k` is at position `Offset(k) + j`. So options follow template order, then action order. |
| `Extension.FlattenFrom` | src/extension.ts:80-89 | Every option of the menu comes from one (template, action) pair of the catalog. |
| `Extension.FlattenIndex` | src/extension.ts:80-89 | Every menu position is `Offset(k) + j` for a (template, action) pair of the catalog, and that pair's option sits there. |
| `Extension.SelectTemplateAction` | src/extension.ts:91-100 | Dismissing gives `undefined`, and only dismissing does. A pick gives the template and action of the chosen option itself, which form a pair of the catalog. |
| `Extension.SelectRoundTrip` | src/extension.ts:79-101 | Picking the option for a (template, action) pair gives back exactly that pair. |
| `Extension.SelectAt` | src/extension.ts:79-101 | Picking any menu position gives back the catalog pair whose option is at that position. |
| `Extension.ActionsDirectory` | src/extension.ts:70 | A missing or empty templates path from `resolve` falls back to `_templates`. Any other path is used as it is. |
| `Extension.GetTemplates` | src/extension.ts:63-77 | `resolve` is asked about `<directory>/templates` with `cwd = directory`. The load fails exactly when `resolve` throws or `availableActions` throws. Otherwise the catalog is what `availableActions` lists for the resolved directory. |
| `Extension.Generate` | src/extension.ts:109-141 | The runner gets `[template, action, name]`, `<root>/_templates`, `cwd = destination`, `debug` off, a console logger and a prompter factory. A reported failure and a throw both give the one message "Failed to generate template". Success gives no message. |
| `Extension.Handle` | src/extension.ts:10-53 | A missing event or empty path gives the destination error, and only that case does. A destination under no folder gives the "no workspace" error. The "called directly" error can never occur. The command rethrows, with the template-directory message, exactly when the templates fail to load. It ends silently exactly when the menu is dismissed or the name is dismissed or empty after a successful load. A runner call always uses the destination as `cwd` and a non-empty name. |
| `Extension.PickAndGenerate` | src/extension.ts:34-52 | After a successful load, the command ends silently exactly when the menu is dismissed or the name is dismissed or empty. Otherwise it runs the generator with the destination as `cwd` and a non-empty name. |
| `Extension.PickRuns` | src/extension.ts:34-52 | After a successful load, picking any menu option and entering a non-empty name calls `generate` with exactly the catalog pair behind that option and that name. |
| `Extension.LoadFailureIgnoresLaterReplies` | src/extension.ts:33-34 | When the catalog fails to load, the command ends in the template-directory error. The menu, the name box and the runner are never consulted. |
| `Extension.HandleRuns` | src/extension.ts:33-52 | When every step succeeds, whichever option is picked, the runner receives the catalog pair behind it and the name, the matched folder's `_templates` directory, and the destination. |
| `Extension.CancelAborts` | src/extension.ts:36-44 | A dismissed menu, or a dismissed or empty name, ends the command silently. |

## Left out

- The editor API (`showInputBox`, `showQuickPick`, `showErrorMessage`, `registerCommand`, `context.subscriptions`, `workspaceFolders`) is not modelled. Replies are parameters; shown messages are outcome values. The prompts' `message` text is carried but not interpreted; the name box's `Name` title is not modelled.
- hygen's `resolve`, `availableActions`, `runner` and `Logger` are foreign. Their replies are supplied. The requests to `resolve` and `availableActions` are modelled in full.
- `Extension.Generate` records the runner's `logger` and `createPrompter` options only as present (`logsToConsole`, `suppliesPrompter`). The runner does not call back into the prompter in this model. `Prompter` is modelled on its own, as it would answer one batch of hygen's questions.
- `Extension.GetTemplates` treats an `availableActions` failure as caught. The source returns that call's result without `await`, so this holds only when it throws synchronously. A rejected promise would skip the catch block and show no message.
- `Prompter.Ask` treats names as plain map keys. In the source, `answers` is a plain object, and a handled prompt named `__proto__` would set its prototype instead of adding a key. `prompt` would then reject with a TypeError. That reserved key is not modelled; the contracts of `Ask`, `AnswerKeys`, `LastWins` and `DistinctNamesGiveOneKeyEach` describe the answers for every other name.
- Promises are not modelled. The source stores each handler's promise in the answer map without awaiting it. The model stores the value that promise settles to for the supplied response. It does not claim the source awaits anything, and it does not model prompts overlapping on screen.
- `Prompter.HandleConfirm` models `toLowerCase` on ASCII letters only. No other character lower-cases to `y`, so the test on the first character is unaffected.
- `Extension.Join` is plain `/` concatenation. The normalisation `path.join` performs is not modelled.
- The catalog is an ordered list of entries in the order `Object.keys` yields. JavaScript's rule that integer-like keys come first is not modelled.
- The quick pick is assumed to return only an option it offered (`PicksFromMenu`, and `Fits` for list prompts). The input boxes are assumed to return only text.
- Console logging, `activate`/`deactivate`, and the one-time capture of the workspace folders at activation are not modelled. The folders are part of `Host`.
