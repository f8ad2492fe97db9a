/** The activation window: the status label, the dialogs and status changes
    the user sees, the `wscript.exe` processes started, and the handlers that
    run when the user clicks a button and when a process finishes. */
module Activation {
  import opened Wrappers
  import opened Text
  import opened Paths
  import opened Registry
  import opened Validator
  import opened Layout

  /** The script host every activation runs. */
  const ScriptHost: string := "wscript.exe"

  const ReadyStatus: string := "✅ 准备就绪 | 请选择需要激活的开发工具"

  /** "Activating <name>...". */
  function InProgressStatus(name: string): string
  {
    "🔄 正在激活 " + name + "..."
  }

  /** "<name> activated successfully!". */
  function SuccessMessage(name: string): string
  {
    name + " 激活成功！"
  }

  /** "<name> activation failed (error code: <code>)". */
  function FailureMessage(name: string, code: int): string
  {
    name + " 激活失败 (错误码: " + DecimalString(code) + ")"
  }

  /** The status text after a process finished with `code`. */
  function ResultStatus(name: string, code: int): string
  {
    if code == 0 then "✅ " + SuccessMessage(name) else "❌ " + FailureMessage(name, code)
  }

  datatype Severity = Information | Critical

  /** A modal `QMessageBox`: its icon, title and text. */
  datatype Dialog = Dialog(severity: Severity, title: string, text: string)

  /** Shown when a script fails the check at the moment of a click. */
  function FileErrorDialog(path: string): Dialog
  {
    Dialog(Critical, "文件错误", "无效的脚本文件路径：\n" + path)
  }

  /** Shown when the process cannot be started. */
  function RuntimeErrorDialog(cause: string): Dialog
  {
    Dialog(Critical, "运行时错误", "无法执行脚本：\n" + cause)
  }

  /** The dialog after a process finished with `code`; a failure comes with
      advice (turn off the antivirus, check the network, try again). */
  function ResultDialog(name: string, code: int): Dialog
  {
    if code == 0 then Dialog(Information, "成功", SuccessMessage(name))
    else Dialog(Critical, "错误", FailureMessage(name, code) + "\n建议操作：\n1. 关闭杀毒软件\n2. 检查网络连接\n3. 重新尝试")
  }

  /** What the user can observe, in the order it happens. */
  datatype Effect =
    | StatusShown(text: string)
    | DialogShown(dialog: Dialog)
    | ProcessStarted(index: nat)

  /** The text on the status label after a history: the last status shown,
      or the initial one. */
  function CurrentStatus(history: seq<Effect>): string
  {
    if history == [] then ReadyStatus
    else match history[|history| - 1]
      case StatusShown(t) => t
      case _ => CurrentStatus(history[..|history| - 1])
  }

  /** Only a status change changes the status text. */
  lemma CurrentStatusAppend(history: seq<Effect>, e: Effect)
    ensures CurrentStatus(history + [e]) == if e.StatusShown? then e.text else CurrentStatus(history)
  {
    assert (history + [e])[..|history|] == history;
  }

  datatype ProcessState = Running | Exited(code: int)

  /** A started `QProcess`: the program, its arguments, the tool name its
      `finished` handler is bound to, and whether it has finished. */
  datatype Process = Process(program: string, arguments: seq<string>, boundName: string, state: ProcessState)

  /** What every process the window starts looks like: the script host with
      one argument, a script with the `.vbs` extension (its existence was
      checked when it started), the handler bound to the
      name shown for that script. */
  predicate Dispatched(p: Process)
  {
    p.program == ScriptHost && |p.arguments| == 1 && HasScriptExtension(p.arguments[0])
    && p.boundName == DisplayName(p.arguments[0])
  }

  predicate AllDispatched(ps: seq<Process>)
  {
    forall i :: 0 <= i < |ps| ==> Dispatched(ps[i])
  }

  /** Every process-start record in `history` names one of the first `n`
      processes. */
  predicate StartsBelow(history: seq<Effect>, n: nat)
  {
    forall i :: 0 <= i < |history| && history[i].ProcessStarted? ==> history[i].index < n
  }

  /** The window's invariant, on the values of its fields: the registry is a
      well-formed dict, the status label heads the layout and every other
      widget is a button, the label shows the last status in the history,
      every process is a dispatched script, and every start record names a
      process. */
  predicate Consistent(status: string, history: seq<Effect>, processes: seq<Process>,
                       layout: seq<Placement>, scriptMapping: ScriptMapping)
  {
    && WellFormed(scriptMapping)
    && |layout| >= 1 && layout[0] == StatusPlacement
    && (forall j :: 1 <= j < |layout| ==> layout[j].widget.ActionButton?)
    && status == CurrentStatus(history)
    && AllDispatched(processes)
    && StartsBelow(history, |processes|)
  }

  lemma StartsBelowAppend(history: seq<Effect>, e: Effect, n: nat, m: nat)
    requires StartsBelow(history, n) && n <= m
    requires e.ProcessStarted? ==> e.index < m
    ensures StartsBelow(history + [e], m)
  {
    forall i | 0 <= i < |history + [e]| && (history + [e])[i].ProcessStarted?
      ensures (history + [e])[i].index < m
    {
      if i < |history| {
        assert (history + [e])[i] == history[i];
      }
    }
  }

  /** Showing a status text keeps the invariant. */
  lemma StatusKeepsConsistent(status: string, history: seq<Effect>, processes: seq<Process>,
                              layout: seq<Placement>, scriptMapping: ScriptMapping, text: string)
    requires Consistent(status, history, processes, layout, scriptMapping)
    ensures Consistent(text, history + [StatusShown(text)], processes, layout, scriptMapping)
  {
    CurrentStatusAppend(history, StatusShown(text));
    StartsBelowAppend(history, StatusShown(text), |processes|, |processes|);
  }

  /** Showing a dialog keeps the invariant and the status text. */
  lemma DialogKeepsConsistent(status: string, history: seq<Effect>, processes: seq<Process>,
                              layout: seq<Placement>, scriptMapping: ScriptMapping, d: Dialog)
    requires Consistent(status, history, processes, layout, scriptMapping)
    ensures Consistent(status, history + [DialogShown(d)], processes, layout, scriptMapping)
  {
    CurrentStatusAppend(history, DialogShown(d));
    StartsBelowAppend(history, DialogShown(d), |processes|, |processes|);
  }

  /** Starting a dispatched process, and recording its start, keeps the
      invariant. */
  lemma StartKeepsConsistent(status: string, history: seq<Effect>, processes: seq<Process>,
                             layout: seq<Placement>, scriptMapping: ScriptMapping, p: Process)
    requires Consistent(status, history, processes, layout, scriptMapping)
    requires Dispatched(p)
    ensures Consistent(status, history + [ProcessStarted(|processes|)], processes + [p], layout, scriptMapping)
  {
    CurrentStatusAppend(history, ProcessStarted(|processes|));
    StartsBelowAppend(history, ProcessStarted(|processes|), |processes|, |processes| + 1);
    forall i | 0 <= i < |processes + [p]|
      ensures Dispatched((processes + [p])[i])
    {
      if i < |processes| {
        assert (processes + [p])[i] == processes[i];
      }
    }
  }

  /** Marking a process finished keeps the invariant. */
  lemma FinishKeepsConsistent(status: string, history: seq<Effect>, processes: seq<Process>,
                              layout: seq<Placement>, scriptMapping: ScriptMapping, index: nat, code: int)
    requires Consistent(status, history, processes, layout, scriptMapping)
    requires index < |processes|
    ensures Consistent(status, history, processes[index := processes[index].(state := Exited(code))], layout, scriptMapping)
  {
  }

  /** The button at a layout position can be clicked and starts an
      activation for `path`. */
  predicate Clickable(p: Placement)
  {
    p.widget.ActionButton? && p.widget.button.enabled && p.widget.button.onClick.Some?
  }

  class ActivationApp {
    /** The status label's text. */
    var status: string
    /** Everything shown to the user, oldest first. */
    var history: seq<Effect>
    /** Every process started, in start order. */
    var processes: seq<Process>
    /** The widgets added to the grid layout, in order. */
    var layout: seq<Placement>
    /** `self.script_mapping`. */
    var scriptMapping: ScriptMapping

    ghost predicate Valid()
      reads this
    {
      Consistent(status, history, processes, layout, scriptMapping)
    }

    /** `__init__`: the status label goes to row 5, then the registry is
        loaded. */
    constructor (h: Host, norm: Normalizer)
      ensures Valid()
      ensures status == ReadyStatus && history == [] && processes == [] && layout == [StatusPlacement]
      ensures scriptMapping.keys == ToolNames
      ensures forall name :: name in scriptMapping.paths ==> scriptMapping.paths[name] == ScriptPath(h, norm, name)
    {
      status := ReadyStatus;
      history := [];
      processes := [];
      layout := [StatusPlacement];
      var m := LoadScriptsConfig(h, norm);
      scriptMapping := m;
    }

    /** `status_label.setText(text)`. */
    method SetStatus(text: string)
      requires Valid()
      modifies this
      ensures Valid()
      ensures status == text && history == old(history) + [StatusShown(text)]
      ensures processes == old(processes) && layout == old(layout) && scriptMapping == old(scriptMapping)
    {
      StatusKeepsConsistent(status, history, processes, layout, scriptMapping, text);
      status, history := text, history + [StatusShown(text)];
    }

    /** A modal `QMessageBox`. */
    method ShowDialog(d: Dialog)
      requires Valid()
      modifies this
      ensures Valid()
      ensures status == old(status) && history == old(history) + [DialogShown(d)]
      ensures processes == old(processes) && layout == old(layout) && scriptMapping == old(scriptMapping)
    {
      DialogKeepsConsistent(status, history, processes, layout, scriptMapping, d);
      history := history + [DialogShown(d)];
    }

    /** `process.start(program, arguments)` for a process whose `finished`
        handler is bound to `boundName`. */
    method StartProcess(p: Process)
      requires Valid() && p.state == Running && Dispatched(p)
      modifies this
      ensures Valid()
      ensures processes == old(processes) + [p]
      ensures status == old(status) && history == old(history) + [ProcessStarted(|old(processes)|)]
      ensures layout == old(layout) && scriptMapping == old(scriptMapping)
    {
      StartKeepsConsistent(status, history, processes, layout, scriptMapping, p);
      history, processes := history + [ProcessStarted(|processes|)], processes + [p];
    }

    /** `create_activation_buttons`: one button per registry entry, two per
        row, each wired to its script or disabled as missing. */
    method CreateActivationButtons(fs: FileSystem)
      requires Valid()
      modifies this
      ensures Valid()
      ensures layout == old(layout) + ButtonPlacements(fs, scriptMapping)
      ensures status == old(status) && history == old(history) && processes == old(processes)
      ensures scriptMapping == old(scriptMapping)
    {
      var row, column := 0, 0;
      ghost var entries := ButtonPlacements(fs, scriptMapping);
      var i := 0;
      while i < |scriptMapping.keys|
        invariant scriptMapping == old(scriptMapping) && |entries| == |scriptMapping.keys|
        invariant 0 <= i <= |scriptMapping.keys|
        invariant row == GridRow(i) && column == GridColumn(i)
        invariant layout == old(layout) + entries[..i]
        invariant status == old(status) && history == old(history) && processes == old(processes)
      {
        var ideName := scriptMapping.keys[i];
        var scriptPath := scriptMapping.paths[ideName];
        var button := ButtonFor(fs, ideName, scriptPath);
        layout := layout + [Placement(ActionButton(button), row, column, 1, 1)];
        column := (column + 1) % 2;
        if column == 0 {
          row := row + 1;
        }
        i := i + 1;
      }
      assert entries[..i] == entries;
    }

    /** The outcome of `execute_activation(path)`: a path failing the check
        yields one file-error dialog and nothing else; otherwise the status
        reads "in progress" for the path's name, and then either one process
        `wscript.exe path` is started with its handler bound to that name, or
        (the start fails) one runtime-error dialog is shown. */
    twostate predicate Activated(fs: FileSystem, path: string, startFailure: Option<string>)
      reads this
    {
      && layout == old(layout) && scriptMapping == old(scriptMapping)
      && (!CheckScriptValid(fs, path) ==>
            && status == old(status) && processes == old(processes)
            && history == old(history) + [DialogShown(FileErrorDialog(path))])
      && (CheckScriptValid(fs, path) ==>
            && status == InProgressStatus(DisplayName(path))
            && match startFailure
               case Some(cause) =>
                 && processes == old(processes)
                 && history == old(history) + [StatusShown(status)] + [DialogShown(RuntimeErrorDialog(cause))]
               case None =>
                 && processes == old(processes) + [Process(ScriptHost, [path], DisplayName(path), Running)]
                 && history == old(history) + [StatusShown(status)] + [ProcessStarted(|old(processes)|)])
    }

    /** `execute_activation(script_path)`. Whether starting the process
        raises is decided by the environment: `startFailure` holds the
        error's text when it does. */
    method ExecuteActivation(fs: FileSystem, scriptPath: string, startFailure: Option<string>)
      requires Valid()
      modifies this
      ensures Valid()
      ensures Activated(fs, scriptPath, startFailure)
    {
      if !CheckScriptValid(fs, scriptPath) {
        ShowDialog(FileErrorDialog(scriptPath));
        return;
      }
      var ideName := DisplayName(scriptPath);
      SetStatus(InProgressStatus(ideName));
      match startFailure
      case Some(cause) =>
        ShowDialog(RuntimeErrorDialog(cause));
      case None =>
        StartProcess(Process(ScriptHost, [scriptPath], ideName, Running));
    }

    /** `handle_activation_result(exit_code, ide_name)`: one status update
        and one dialog, success exactly for exit code 0. */
    method HandleActivationResult(exitCode: int, ideName: string)
      requires Valid()
      modifies this
      ensures Valid()
      ensures status == ResultStatus(ideName, exitCode)
      ensures history == old(history) + [StatusShown(status)] + [DialogShown(ResultDialog(ideName, exitCode))]
      ensures processes == old(processes) && layout == old(layout) && scriptMapping == old(scriptMapping)
    {
      if exitCode == 0 {
        var msg := SuccessMessage(ideName);
        SetStatus("✅ " + msg);
        ShowDialog(Dialog(Information, "成功", msg));
      } else {
        var errorMsg := FailureMessage(ideName, exitCode);
        SetStatus("❌ " + errorMsg);
        ShowDialog(Dialog(Critical, "错误", errorMsg + "\n建议操作：\n1. 关闭杀毒软件\n2. 检查网络连接\n3. 重新尝试"));
      }
    }

    /** The `finished` signal of the `index`-th process: the process is
        marked finished and the result handler runs with the name bound when
        it was started. Qt emits the signal once per started process. */
    method OnProcessFinished(index: nat, exitCode: int)
      requires Valid()
      requires index < |processes| && processes[index].state == Running
      modifies this
      ensures Valid()
      ensures processes == old(processes)[index := old(processes[index]).(state := Exited(exitCode))]
      ensures var name := old(processes[index].boundName);
        && status == ResultStatus(name, exitCode)
        && history == old(history) + [StatusShown(status)] + [DialogShown(ResultDialog(name, exitCode))]
      ensures layout == old(layout) && scriptMapping == old(scriptMapping)
    {
      var process := processes[index];
      FinishKeepsConsistent(status, history, processes, layout, scriptMapping, index, exitCode);
      processes := processes[index := process.(state := Exited(exitCode))];
      HandleActivationResult(exitCode, process.boundName);
    }

    /** A click on the widget at layout position `j`: a disabled button (or
        the label) does nothing; an enabled one runs `execute_activation`
        with the path it was connected to. */
    method Click(fs: FileSystem, j: nat, startFailure: Option<string>)
      requires Valid() && j < |layout|
      modifies this
      ensures Valid()
      ensures !Clickable(old(layout[j])) ==>
        status == old(status) && history == old(history) && processes == old(processes)
        && layout == old(layout) && scriptMapping == old(scriptMapping)
      ensures Clickable(old(layout[j])) ==>
        Activated(fs, old(layout[j]).widget.button.onClick.value, startFailure)
    {
      var p := layout[j];
      if Clickable(p) {
        ExecuteActivation(fs, p.widget.button.onClick.value, startFailure);
      }
    }
  }

  /** A completion always replaces the status: the result text differs from
      the initial text and from every "in progress" text, and it reads as a
      success exactly for exit code 0. */
  lemma ResultStatusIsTerminal(name: string, other: string, code: int)
    ensures ResultStatus(name, code) != ReadyStatus
    ensures ResultStatus(name, code) != InProgressStatus(other)
    ensures ResultStatus(name, code)[0] == (if code == 0 then '✅' else '❌')
  {
    var s := ResultStatus(name, code);
    assert InProgressStatus(other)[0] == '🔄';
    if code == 0 {
      assert s == ("✅ " + name) + " 激活成功！";
      assert s[|s| - 1] == '！';
      assert ReadyStatus[|ReadyStatus| - 1] == '具';
    } else {
      assert s == "❌ " + FailureMessage(name, code);
      assert ReadyStatus[0] == '✅';
    }
  }

  /** The result dialog informs on success and warns on failure, and its
      text begins with the message the status label shows after the icon. */
  lemma ResultDialogKind(name: string, code: int)
    ensures ResultDialog(name, code).severity == (if code == 0 then Information else Critical)
    ensures ResultDialog(name, code).title == (if code == 0 then "成功" else "错误")
    ensures code == 0 ==> ResultDialog(name, code).text == SuccessMessage(name)
    ensures code != 0 ==>
      var m := FailureMessage(name, code);
      |m| <= |ResultDialog(name, code).text| && ResultDialog(name, code).text[..|m|] == m
  {
    if code != 0 {
      var m := FailureMessage(name, code);
      assert (m + "\n建议操作：\n1. 关闭杀毒软件\n2. 检查网络连接\n3. 重新尝试")[..|m|] == m;
    }
  }

  /** The failure status shows the exit code: statuses for the same tool
      and different codes always differ. */
  lemma ResultStatusDeterminesCode(name: string, a: int, b: int)
    requires ResultStatus(name, a) == ResultStatus(name, b)
    ensures a == b
  {
    ResultStatusIsTerminal(name, name, a);
    ResultStatusIsTerminal(name, name, b);
    if a != 0 && b != 0 {
      var head, mid := "❌ ", " 激活失败 (错误码: ";
      RegroupFailure(head, name, mid, DecimalString(a), ")");
      RegroupFailure(head, name, mid, DecimalString(b), ")");
      StripAffixes(head + name + mid, DecimalString(a), DecimalString(b), ")");
      DecimalInjective(a, b);
    }
  }

  lemma RegroupFailure(head: string, name: string, mid: string, code: string, tail: string)
    ensures head + (name + mid + code + tail) == (head + name + mid) + code + tail
  {
  }

  /** End to end for one registry entry: if its button came out enabled,
      then clicking it with the file system unchanged passes the re-check,
      and the handler of the process it starts is bound to the tool's own
      name. */
  lemma RegistryButtonActivatesItsTool(h: Host, norm: Normalizer, fs: FileSystem, m: ScriptMapping, k: nat)
    requires KeepsLastComponent(norm)
    requires WellFormed(m) && m.keys == ToolNames
    requires forall name :: name in m.paths ==> m.paths[name] == ScriptPath(h, norm, name)
    requires k < |m.keys| && Clickable(ButtonPlacements(fs, m)[k])
    ensures var path := ButtonPlacements(fs, m)[k].widget.button.onClick.value;
      CheckScriptValid(fs, path) && DisplayName(path) == m.keys[k]
  {
    ButtonWiring(fs, m, k);
    ToolNamesArePlain();
    DisplayNameOfScriptPath(h, norm, m.keys[k]);
  }
}
