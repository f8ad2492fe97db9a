/** The action registry: the eight supported tools, the naming convention
    that turns a tool name into its script's file name, and the inverse that
    turns a script path back into the name shown to the user. */
module Registry {
  import opened Text
  import opened Paths

  /** The tools, in the order the buttons are laid out. */
  const ToolNames: seq<string> :=
    ["CLion", "DataGrip", "GoLand", "IDEA", "PhpStorm", "PyCharm", "Rider", "WebStorm"]

  /** The marker between a tool name and the extension ("activation"). */
  const Marker: string := "激活"

  const ScriptExtension: string := ".vbs"

  const ScriptDir: string := "scripts"

  /** `f"{name}激活.vbs"`. */
  function ScriptFileName(name: string): string
  {
    name + Marker + ScriptExtension
  }

  /** `resource_path(os.path.join("scripts", script_file))`. */
  function ScriptPath(h: Host, norm: Normalizer, name: string): string
  {
    ResourcePath(h, norm, Join(ScriptDir, ScriptFileName(name)))
  }

  /** The name shown for a script: `os.path.basename(path).split('激活')[0]`. */
  function DisplayName(path: string): string
  {
    SplitHead(BaseName(path), Marker)
  }

  /** The name shown is the start of the path's last component, so it holds
      no separator. */
  lemma DisplayNameIsStartOfBaseName(path: string)
    ensures |DisplayName(path)| <= |BaseName(path)|
    ensures DisplayName(path) == BaseName(path)[..|DisplayName(path)|]
    ensures NoSep(DisplayName(path))
  {
    var b, d := BaseName(path), DisplayName(path);
    forall i | 0 <= i < |d|
      ensures !IsSep(d[i])
    {
      assert d[i] == b[i];
    }
  }

  predicate Distinct(s: seq<string>)
  {
    forall i, j :: 0 <= i < j < |s| ==> s[i] != s[j]
  }

  /** A Python dict from tool name to script path: the keys in insertion
      order (what `dict.items()` walks) and the key-value map. */
  datatype ScriptMapping = ScriptMapping(keys: seq<string>, paths: map<string, string>)

  predicate WellFormed(m: ScriptMapping)
  {
    && Distinct(m.keys)
    && (forall k | k in m.keys :: k in m.paths)
    && (forall k | k in m.paths :: k in m.keys)
  }

  lemma ToolNamesDistinct()
    ensures Distinct(ToolNames)
  {
  }

  /** `load_scripts_config`: one entry per tool, in declaration order, each
      mapped to the resolved path of its script. */
  method LoadScriptsConfig(h: Host, norm: Normalizer) returns (m: ScriptMapping)
    ensures WellFormed(m)
    ensures m.keys == ToolNames
    ensures forall name :: name in m.paths ==> m.paths[name] == ScriptPath(h, norm, name)
  {
    ToolNamesDistinct();
    var keys: seq<string> := [];
    var paths: map<string, string> := map[];
    for i := 0 to |ToolNames|
      invariant keys == ToolNames[..i]
      invariant forall k :: k in paths <==> k in keys
      invariant forall k :: k in paths ==> paths[k] == ScriptPath(h, norm, k)
    {
      var name := ToolNames[i];
      var scriptFile := name + Marker + ScriptExtension;
      var scriptPath := ResourcePath(h, norm, Join(ScriptDir, scriptFile));
      // dict assignment: a new key is appended, an existing one keeps its place
      if name !in paths {
        keys := keys + [name];
      }
      paths := paths[name := scriptPath];
    }
    m := ScriptMapping(keys, paths);
  }

  /** A tool name the naming convention can be undone for: no separator and
      no marker inside it. Every supported tool name is one. */
  predicate PlainName(name: string)
  {
    NoSep(name) && !Contains(name, Marker)
  }

  /** A name spelled in ASCII letters is plain: the marker is not ASCII. */
  lemma LettersArePlain(name: string)
    requires forall i :: 0 <= i < |name| ==> 'A' <= name[i] <= 'Z' || 'a' <= name[i] <= 'z'
    ensures PlainName(name)
  {
    forall i: nat | i <= |name|
      ensures !OccursAt(name, Marker, i)
    {
      if i + 2 <= |name| {
        assert name[i..i + 2][0] == name[i];
      }
    }
  }

  lemma ToolNamesArePlain()
    ensures forall name :: name in ToolNames ==> PlainName(name)
  {
    LettersArePlain("CLion");
    LettersArePlain("DataGrip");
    LettersArePlain("GoLand");
    LettersArePlain("IDEA");
    LettersArePlain("PhpStorm");
    LettersArePlain("PyCharm");
    LettersArePlain("Rider");
    LettersArePlain("WebStorm");
  }

  /** Splitting a script's file name at the marker gives back the tool name. */
  lemma SplitScriptFileName(name: string)
    requires !Contains(name, Marker)
    ensures SplitHead(ScriptFileName(name), Marker) == name
  {
    var s := ScriptFileName(name);
    var n := |name|;
    assert s[n..n + 2] == Marker;
    assert OccursAt(s, Marker, n);
    forall i: nat | i < n
      ensures !OccursAt(s, Marker, i)
    {
      if i + 2 <= n {
        assert s[i..i + 2] == name[i..i + 2];
        assert !OccursAt(name, Marker, i);
      } else {
        assert s[i + 1] == Marker[0] != Marker[1];
      }
    }
    var head := SplitHead(s, Marker);
    assert Contains(s, Marker);
    assert |head| == n;
    assert head == s[..n] == name;
  }

  /** The display-name round trip: the name derived from a tool's script
      path is the tool's own name, wherever the scripts are resolved from. */
  lemma DisplayNameOfScriptPath(h: Host, norm: Normalizer, name: string)
    requires KeepsLastComponent(norm)
    requires PlainName(name)
    ensures BaseName(ScriptPath(h, norm, name)) == ScriptFileName(name)
    ensures DisplayName(ScriptPath(h, norm, name)) == name
  {
    var file := ScriptFileName(name);
    assert NoSep(file) by {
      forall i | 0 <= i < |file| ensures !IsSep(file[i]) {
        if i >= |name| {
          assert file[i] in "激活.vbs";
        }
      }
    }
    BaseNameOfName(file);
    JoinKeepsBaseName(ScriptDir, file);
    ResourcePathKeepsBaseName(h, norm, Join(ScriptDir, file));
    SplitScriptFileName(name);
  }

  /** Lower-casing a path that ends in the script extension keeps it. */
  lemma LowerKeepsExtension(p: string)
    requires EndsWith(p, ScriptExtension)
    ensures EndsWith(Lower(p), ScriptExtension)
  {
    LowerKeepsSuffix(p, ScriptExtension);
    assert Lower(ScriptExtension) == ScriptExtension by {
      var l := Lower(ScriptExtension);
      assert l[0] == '.' && l[1] == 'v' && l[2] == 'b' && l[3] == 's';
    }
  }

  /** Every tool's script path carries the script extension. */
  lemma ScriptPathHasExtension(h: Host, norm: Normalizer, name: string)
    requires KeepsLastComponent(norm)
    requires PlainName(name)
    ensures EndsWith(Lower(ScriptPath(h, norm, name)), ScriptExtension)
  {
    var p := ScriptPath(h, norm, name);
    DisplayNameOfScriptPath(h, norm, name);
    var file := ScriptFileName(name);
    assert EndsWith(p, file);
    assert file[|file| - 4..] == ScriptExtension;
    EndsWithTransitive(p, file, ScriptExtension);
    LowerKeepsExtension(p);
  }

  /** Distinct tools never share a script path: the registry is 1:1. */
  lemma ScriptPathsDistinct(h: Host, norm: Normalizer, a: string, b: string)
    requires KeepsLastComponent(norm)
    requires PlainName(a) && PlainName(b) && a != b
    ensures ScriptPath(h, norm, a) != ScriptPath(h, norm, b)
  {
    DisplayNameOfScriptPath(h, norm, a);
    DisplayNameOfScriptPath(h, norm, b);
  }
}
