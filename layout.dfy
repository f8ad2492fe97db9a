/** The window's grid: one button per registry entry in a two-column grid,
    and the status label spanning both columns of row 5. A button is wired
    to its script when the script is valid and disabled otherwise. */
module Layout {
  import opened Wrappers
  import opened Registry
  import opened Validator

  /** A push button: its text, whether it is enabled, and the script path
      its `clicked` signal is connected to (`partial(execute_activation, path)`),
      if any. */
  datatype Button = Button(text: string, enabled: bool, onClick: Option<string>)

  datatype Widget = StatusLabel | ActionButton(button: Button)

  /** `layout.addWidget(widget, row, column, rowSpan, columnSpan)`. */
  datatype Placement = Placement(widget: Widget, row: nat, column: nat, rowSpan: nat, columnSpan: nat)

  const StatusRow: nat := 5

  const Columns: nat := 2

  /** The status label's place: row 5, both columns. */
  const StatusPlacement: Placement := Placement(StatusLabel, StatusRow, 0, 1, Columns)

  const MissingTag: string := " (缺失)"

  predicate Covers(p: Placement, row: nat, column: nat)
  {
    p.row <= row < p.row + p.rowSpan && p.column <= column < p.column + p.columnSpan
  }

  /** The button for one registry entry, as the fixed file system at build
      time makes it. */
  function ButtonFor(fs: FileSystem, name: string, path: string): Button
  {
    if CheckScriptValid(fs, path) then Button(name, true, Some(path))
    else Button(name + MissingTag, false, None)
  }

  /** Where the `k`-th entry's button goes, filling rows two at a time. */
  function GridRow(k: nat): nat { k / Columns }

  function GridColumn(k: nat): nat { k % Columns }

  /** The placements `create_activation_buttons` adds, one per entry of the
      mapping, in the mapping's order. */
  function ButtonPlacements(fs: FileSystem, m: ScriptMapping): (ps: seq<Placement>)
    requires WellFormed(m)
    ensures |ps| == |m.keys|
  {
    seq(|m.keys|, k requires 0 <= k < |m.keys| =>
      Placement(ActionButton(ButtonFor(fs, m.keys[k], m.paths[m.keys[k]])), GridRow(k), GridColumn(k), 1, 1))
  }

  /** A button is enabled exactly when its script is valid; then it carries
      the tool name and runs that script, and otherwise it is marked missing
      and runs nothing. */
  lemma ButtonWiring(fs: FileSystem, m: ScriptMapping, k: nat)
    requires WellFormed(m) && k < |m.keys|
    ensures var p, name := ButtonPlacements(fs, m)[k], m.keys[k];
      var path := m.paths[name];
      && p.widget.ActionButton?
      && (p.widget.button.enabled <==> CheckScriptValid(fs, path))
      && (p.widget.button.onClick.Some? <==> p.widget.button.enabled)
      && (p.widget.button.enabled ==> p.widget.button.onClick == Some(path) && p.widget.button.text == name)
      && (!p.widget.button.enabled ==> p.widget.button.text == name + MissingTag)
  {
  }

  /** Grid cells are never shared: different entries sit in different cells. */
  lemma GridCellsDistinct(j: nat, k: nat)
    requires j != k
    ensures GridRow(j) != GridRow(k) || GridColumn(j) != GridColumn(k)
  {
    assert j == Columns * GridRow(j) + GridColumn(j);
    assert k == Columns * GridRow(k) + GridColumn(k);
  }

  /** The `k`-th button lands on the status row exactly for `k` = 10 or 11. */
  lemma OnStatusRow(k: nat)
    ensures GridRow(k) == StatusRow <==> k == 10 || k == 11
  {
  }

  /** With the eight supported tools every button sits in rows 0 to 3,
      columns 0 and 1, and none covers a cell of the status label. */
  lemma RegistryGridClearOfStatus(fs: FileSystem, m: ScriptMapping)
    requires WellFormed(m) && m.keys == ToolNames
    ensures forall k :: 0 <= k < |m.keys| ==>
      ButtonPlacements(fs, m)[k].row <= 3 && ButtonPlacements(fs, m)[k].column <= 1
    ensures forall k, row: nat, column: nat :: 0 <= k < |m.keys| && Covers(ButtonPlacements(fs, m)[k], row, column) ==>
      !Covers(StatusPlacement, row, column)
  {
    var ps := ButtonPlacements(fs, m);
    forall k | 0 <= k < |m.keys|
      ensures ps[k].row <= 3 && ps[k].column <= 1
    {
      assert ps[k].row == k / 2;
    }
  }
}
