# JetBrains activation tool — a Dafny model of its orchestration core

The tool is a small PyQt window (`1.0.3.py`). It shows one button per
supported JetBrains IDE. Each button runs a Visual Basic script
`scripts/<Tool>激活.vbs` through `wscript.exe` and reports the script's exit
code on a status label and in a dialog. This project models:

- the registry of the eight tools and their script paths (`load_scripts_config`);
- the script check, which needs an existing file with a `.vbs` extension in
  any letter case (`check_script_valid`);
- the two-column button grid, where each button is either wired to its
  script or disabled as missing (`create_activation_buttons`);
- the click handler (`execute_activation`), which checks the script again,
  sets the "in progress" status and starts `wscript.exe <path>`;
- the completion handler (`handle_activation_result`), which maps exit code 0
  to success and any other code to failure.

Modules, leaf first:

- `Wrappers`: `Option`.
- `Text`: the string operations the code relies on, namely `lower`,
  `endswith`, `split(sep)[0]` and the f-string rendering of an integer.
- `Paths`: ntpath's `basename` and `join`, and `resource_path`.
- `Registry`: the tool list, the naming convention and its inverse (the
  display name), and `LoadScriptsConfig`.
- `Validator`: `CheckScriptValid`.
- `Layout`: buttons, grid placements and the status label's cell.
- `Activation`: the texts and dialogs, and the class `ActivationApp`.

`ActivationApp` keeps the status label's text, the history of what the user
was shown (status changes, dialogs, process starts, in order), the processes
started, the grid layout and the script mapping. Every method keeps the
window's invariant (`Consistent`). The registry is a well-formed dict, the
status label heads the layout, and the label shows the last status in the
history. Every process runs `wscript.exe` on a script with the `.vbs`
extension, whose existence was checked when it started, and its handler is
bound to that script's display name. Each of the three UI effects (a status
text, a dialog, a process start) has a lemma showing that it keeps the
invariant. The environment enters
through parameters:

- the file system is the set of paths `os.path.exists` accepts at the moment
  of a check;
- `sys._MEIPASS` and the working directory form a `Host`;
- `os.path.normpath` is a function parameter. The one thing assumed about it
  is that it never changes an ordinary last path component
  (`KeepsLastComponent`);
- whether starting the process raises is an `Option` holding the error's
  text;
- a process finishing is the method `OnProcessFinished`, called with the
  process's index and exit code.

`resource_path` re-encodes the normalised path as UTF-8 and decodes it again,
falling back to the unchanged path on an encoding error. Both branches give
back the same string, so the model returns the normalised join directly.

Paths follow Windows conventions (`ntpath`), since the tool runs
`wscript.exe`. Both `\` and `/` are separators and `join` inserts `\`.

Two behaviours of the code worth stating:

- the click handler receives the script path, not the tool name. The name
  shown is recomputed from the path's file name;
- when starting the process fails, the status label keeps its "in progress"
  text. Nothing resets it.

## Model

| member | source | states |
|---|---|---|
| `Text.SplitHead` | 1.0.3.py:193 | `s.split(sep)[0]` is the prefix of `s` before the first occurrence of `sep`; it is the whole of `s` exactly when `sep` does not occur |
| `Text.LowerEndsWithVbs` | 1.0.3.py:172 | `lower(p).endswith(".vbs")` holds iff the last four characters of `p` are a dot followed by v, b, s in either case |
| `Text.DecimalString` | 1.0.3.py:224 | the f-string `{exit_code}`: never empty, with a leading minus sign exactly for negative codes; `Text.DecimalRoundTrip` proves that it reads back as the code |
| `Text.DecimalRoundTrip` | 1.0.3.py:224 | the decimal rendering of any exit code, negative ones included, reads back as that code |
| `Paths.BaseName` | 1.0.3.py:193 | `basename` is the longest suffix of the path without a separator |
| `Paths.Join` | 1.0.3.py:129 | `os.path.join` without drives: a rooted second path replaces the first, otherwise one `\` is inserted unless the first is empty or ends in a separator. It has no contract of its own; `Paths.JoinKeepsBaseName` states its property |
| `Paths.JoinKeepsBaseName` | 1.0.3.py:129 | `os.path.join(a, b)` has the same last component as `b`, for every `a` and `b` |
| `Paths.ResourcePath` | 1.0.3.py:23-38 | `resource_path`: the normalised join of the bundle directory, or the working directory when there is none, with the relative path. It has no contract of its own; `Paths.ResourcePathKeepsBaseName` states its property |
| `Paths.ResourcePathKeepsBaseName` | 1.0.3.py:23-38 | `resource_path`, from the bundle or the working directory, keeps the file name of an ordinary relative path, given that `normpath` keeps it |
| `Registry.ToolNamesArePlain` | 1.0.3.py:121-124 | none of the eight tool names contains a path separator or the marker `激活` |
| `Registry.ScriptPath` | 1.0.3.py:128-129 | the path registered for a tool: `resource_path(join("scripts", name + "激活.vbs"))`. It has no contract of its own; `Registry.DisplayNameOfScriptPath`, `Registry.ScriptPathHasExtension` and `Registry.ScriptPathsDistinct` state its properties |
| `Registry.DisplayName` | 1.0.3.py:193 | the name shown for a script path, `basename(path).split("激活")[0]`. It has no contract of its own; `Registry.DisplayNameIsStartOfBaseName` and `Registry.DisplayNameOfScriptPath` state its properties |
| `Registry.DisplayNameIsStartOfBaseName` | 1.0.3.py:193 | the name shown is a prefix of the path's last component and holds no path separator |
| `Registry.LoadScriptsConfig` | 1.0.3.py:119-133 | the mapping has exactly the keys CLion, DataGrip, GoLand, IDEA, PhpStorm, PyCharm, Rider, WebStorm in that order, and each maps to `resource_path(join("scripts", name + "激活.vbs"))` |
| `Registry.DisplayNameOfScriptPath` | 1.0.3.py:193 | for a tool's script path, the basename is `<name>激活.vbs` and splitting it at `激活` gives back the tool's name |
| `Registry.ScriptPathHasExtension` | 1.0.3.py:128 | every tool's script path passes the lower-cased `.vbs` suffix test |
| `Registry.ScriptPathsDistinct` | 1.0.3.py:126-131 | different tools never share a script path |
| `Validator.CheckScriptValid` | 1.0.3.py:165-179 | a path is valid iff it exists and ends in `.vbs` in any letter case; the check is total and never fails |
| `Validator.RegistryEligibilityIsExistence` | 1.0.3.py:168-176 | for a registry path, validity is existence alone |
| `Validator.TextFileIneligible` | 1.0.3.py:172-174 | a `.txt` path is never valid, even when the file exists |
| `Layout.ButtonFor` | 1.0.3.py:139-149 | the button for one entry: enabled, titled with the tool name and connected to its path when the script is valid; otherwise disabled, titled `<name> (缺失)` and unconnected. It has no contract of its own; `Layout.ButtonWiring` states these properties |
| `Layout.ButtonPlacements` | 1.0.3.py:135-163 | one placement per mapping entry, in mapping order; the k-th holds that entry's button at row k div 2, column k mod 2. Its contract gives the length. `Layout.ButtonWiring`, `Layout.GridCellsDistinct` and `Layout.RegistryGridClearOfStatus` state the rest, and `CreateActivationButtons` is proved to append exactly these placements |
| `Layout.ButtonWiring` | 1.0.3.py:139-149 | the k-th button is enabled iff its script is valid. An enabled button shows the tool name and is connected to its path. A disabled one reads `<name> (缺失)` and has no handler |
| `Layout.GridCellsDistinct` | 1.0.3.py:160-163 | two different entries never share a grid cell |
| `Layout.OnStatusRow` | 1.0.3.py:90 | the k-th button reaches the status label's row 5 only for k = 10 or 11 |
| `Layout.RegistryGridClearOfStatus` | 1.0.3.py:158-163 | with the eight tools, buttons sit in rows 0 to 3 and columns 0 and 1, and none covers a cell of the status label |
| `Activation.ActivationApp.constructor` | 1.0.3.py:42-54 | the window starts with the ready status, the status label at row 5 spanning two columns, no dialogs, no processes, and the registry loaded |
| `Activation.ActivationApp.SetStatus` | 1.0.3.py:194 | the status label shows the new text; the history gains exactly that status record, and nothing else changes |
| `Activation.ActivationApp.ShowDialog` | 1.0.3.py:185-190 | the history gains exactly one dialog record; the status text, processes, layout and mapping are unchanged |
| `Activation.ActivationApp.StartProcess` | 1.0.3.py:198-204 | exactly one process is appended, and a start record naming its index is added to the history; the status is unchanged |
| `Activation.ActivationApp.CreateActivationButtons` | 1.0.3.py:135-163 | the row/column counters put the k-th entry at row k div 2, column k mod 2; the layout gains exactly one button per entry in mapping order, and nothing else changes |
| `Activation.ActivationApp.ExecuteActivation` | 1.0.3.py:181-214 | an invalid path gives exactly one "文件错误" dialog with status and processes unchanged. A valid path sets the status to `🔄 正在激活 <name>...`. It then either starts exactly one `wscript.exe` process with the single argument `path` and a handler bound to `<name>`, or shows exactly one "运行时错误" dialog and starts nothing |
| `Activation.ActivationApp.HandleActivationResult` | 1.0.3.py:216-232 | exactly one status update and one dialog. Exit code 0 gives `✅ <name> 激活成功！` and an information dialog. Any other code gives `❌ <name> 激活失败 (错误码: <code>)` and a critical dialog. Nothing else changes |
| `Activation.ActivationApp.OnProcessFinished` | 1.0.3.py:199-201 | a finishing process is marked finished, and the result handler runs once with the name bound when it started |
| `Activation.ActivationApp.Click` | 1.0.3.py:145-148 | a disabled button does nothing; an enabled one runs the click handler on the path it was connected to |
| `Activation.ResultStatus` | 1.0.3.py:218-225 | the status text after a run: `✅ <name> 激活成功！` for code 0, `❌ <name> 激活失败 (错误码: <code>)` otherwise. It has no contract of its own; `Activation.ResultStatusIsTerminal` and `Activation.ResultStatusDeterminesCode` state its properties |
| `Activation.ResultDialog` | 1.0.3.py:219-231 | the dialog after a run: an information dialog "成功" with the success message for code 0, otherwise a critical dialog "错误" with the failure message and the three suggested actions. It has no contract of its own; `Activation.ResultDialogKind` states its kind, title and text |
| `Activation.ResultDialogKind` | 1.0.3.py:219-231 | code 0 gives an information dialog titled "成功" whose text is the success message. Any other code gives a critical dialog titled "错误" whose text starts with the failure message shown on the status label |
| `Activation.ResultStatusIsTerminal` | 1.0.3.py:218-225 | the result status differs from the ready and every "in progress" status, and it starts with ✅ exactly when the code is 0 |
| `Activation.ResultStatusDeterminesCode` | 1.0.3.py:224-225 | the status shows the exit code: two different codes give two different statuses |
| `Activation.RegistryButtonActivatesItsTool` | 1.0.3.py:144-145 | clicking an enabled registry button with the file system unchanged passes the re-check, and the started process's handler is bound to that tool's own name |

## Left out

- Window chrome: title, minimum sizes, icon, tool tips, style sheets, high-DPI setup (1.0.3.py:68-78, 139-141, 150-155, 237-238). None of it affects the logic.
- The licence and antivirus-whitelist dialogs and their `sys.exit(0)` (1.0.3.py:92-117). These are fixed UI dialogs. They run during construction, before the grid and the status label exist and before the window is shown.
- The administrator check through `ctypes.windll` and its `sys.exit(1)` (1.0.3.py:56-66). It is a Windows system call.
- Logging (1.0.3.py:14-20 and every `logging` call). It only writes to a file.
- `QApplication.processEvents()` (1.0.3.py:195). It can deliver pending events between the "in progress" text and the start, such as a click on another button or an earlier process's `finished` signal. Either would add its own effects inside this activation. The model leaves that interleaving out, as the concurrency line below says.
- Real process execution and asynchronous signal delivery. A start is a record in `processes`, and a finish is a call to `OnProcessFinished`. Qt delivers `finished` once per started process, which that method's precondition states.
- Concurrency and re-triggering while a process runs. The model lets the same button start further processes, as the code does, but does not model interleavings.
- Qt reporting a failed start through `errorOccurred` instead of an exception. Only the exception path that the code catches is modelled.
- `os.path.normpath` and `os.path.abspath` semantics. `normpath` is a parameter with the single stated property; the working directory is taken as already absolute.
- Drive prefixes such as `C:` in `basename` and `join`. The model's path functions ignore drives.
- Python's full Unicode `str.lower`. Only ASCII capitals are folded. No other character lower-cases to `.`, `v`, `b` or `s`, so the extension test agrees with Python's.
- Case-insensitive file-name lookup on Windows. Existence is membership in the given set of paths.
- The exit status (normal or crash) passed with `finished`. The handler ignores it, and so does the model.
- The `.vbs` scripts themselves. They are opaque external programs.
