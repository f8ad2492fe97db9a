/** The script validator: a path may be executed only if it exists and has
    the script extension, compared without regard to case. */
module Validator {
  import opened Text
  import opened Paths
  import opened Registry

  /** The paths for which `os.path.exists` answers true at the moment of a
      check. */
  type FileSystem = set<string>

  /** The extension test written out letter by letter: a dot, then v, b, s
      in either case. */
  predicate HasScriptExtension(path: string)
  {
    |path| >= 4 && path[|path| - 4] == '.' && path[|path| - 3] in "vV"
    && path[|path| - 2] in "bB" && path[|path| - 1] in "sS"
  }

  /** `check_script_valid`. The source's `except` clause turns any error into
      false; neither `os.path.exists` nor `str.lower` can fail on a string, so
      the function is total and the error branch has nothing left to catch. */
  function CheckScriptValid(fs: FileSystem, path: string): (ok: bool)
    ensures ok <==> path in fs && HasScriptExtension(path)
  {
    LowerEndsWithVbs(path);
    if path !in fs then false
    else if !EndsWith(Lower(path), ScriptExtension) then false
    else true
  }

  /** For a registry entry the extension test always passes, so eligibility
      is existence alone. */
  lemma RegistryEligibilityIsExistence(fs: FileSystem, h: Host, norm: Normalizer, name: string)
    requires KeepsLastComponent(norm)
    requires name in ToolNames
    ensures CheckScriptValid(fs, ScriptPath(h, norm, name)) <==> ScriptPath(h, norm, name) in fs
  {
    ToolNamesArePlain();
    ScriptPathHasExtension(h, norm, name);
    LowerEndsWithVbs(ScriptPath(h, norm, name));
  }

  /** An existing file with another extension is not eligible. */
  lemma TextFileIneligible(fs: FileSystem, stem: string)
    ensures !CheckScriptValid(fs, stem + ".txt")
  {
  }
}
