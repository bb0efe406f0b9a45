/** Plugin format detection by file name (src/discovery.rs). Paths are
    strings; only ASCII letters are case-folded. */
module Discovery {
  import opened Common

  function LowerChar(c: char): (r: char)
    ensures 'A' <= c <= 'Z' ==> r as int == c as int + 32
    ensures !('A' <= c <= 'Z') ==> r == c
  {
    if 'A' <= c <= 'Z' then (c as int + 32) as char else c
  }

  /** `to_lowercase`, character by character. */
  function ToLower(s: string): (r: string)
    ensures |r| == |s|
    ensures forall i :: 0 <= i < |s| ==> r[i] == LowerChar(s[i])
  {
    seq(|s|, i requires 0 <= i < |s| => LowerChar(s[i]))
  }

  predicate EndsWith(s: string, suffix: string) {
    |suffix| <= |s| && s[|s| - |suffix|..] == suffix
  }

  /** The extension test of `is_vst2`. */
  predicate HasVst2Extension(path: string) {
    var lower := ToLower(path);
    EndsWith(lower, ".dll") || EndsWith(lower, ".so") || EndsWith(lower, ".vst")
  }

  /** `is_vst3`. */
  predicate IsVst3(path: string) {
    EndsWith(ToLower(path), ".vst3")
  }

  /** `is_clap`. */
  predicate IsClap(path: string) {
    EndsWith(ToLower(path), ".clap")
  }

  /** The file system as `is_vst2` sees it: the paths that exist, and the
      files whose parsed ELF or PE symbol/export table names `VSTPluginMain`
      (the result of the content scan, which is not modelled itself). */
  datatype FileSystem = FileSystem(files: set<string>, pluginMainExporters: set<string>)

  datatype Panic = Panic(message: string)

  /** `is_vst2` as written: after the extension test the name `path` is
      rebound to the lowercased string, and the content scan reads THAT path;
      a path that cannot be read makes `expect` panic. */
  function IsVst2AsWritten(path: string, checkContents: bool, fs: FileSystem): (r: Result<bool, Panic>)
    ensures r.Err? ==> checkContents && path in fs.files && ToLower(path) !in fs.files
  {
    if path !in fs.files then Ok(false)
    else
      var lower := ToLower(path);
      if !(EndsWith(lower, ".dll") || EndsWith(lower, ".so") || EndsWith(lower, ".vst")) then Ok(false)
      else if !checkContents then Ok(true)
      else if lower !in fs.files then Err(Panic("Failed to read file"))
      else Ok(lower in fs.pluginMainExporters)
  }

  /** `is_vst2` with the content scan reading the path it was given. */
  function IsVst2(path: string, checkContents: bool, fs: FileSystem): (r: bool)
    ensures path !in fs.files ==> !r
    ensures !checkContents ==> (r <==> path in fs.files && HasVst2Extension(path))
    ensures checkContents ==> (r <==> path in fs.files && HasVst2Extension(path) && path in fs.pluginMainExporters)
  {
    if path !in fs.files then false
    else if !HasVst2Extension(path) then false
    else if !checkContents then true
    else path in fs.pluginMainExporters
  }

  /** On a case-sensitive file system an existing VST2 library whose path has
      an upper-case letter makes the content scan panic, while the intended
      detection recognises it. */
  lemma MixedCasePathPanics()
    ensures var fs := FileSystem({"/Plugins/Synth.so"}, {"/Plugins/Synth.so"});
      IsVst2AsWritten("/Plugins/Synth.so", true, fs).Err? && IsVst2("/Plugins/Synth.so", true, fs)
  {
    var p := "/Plugins/Synth.so";
    var lower := ToLower(p);
    assert lower[1] == 'p' != p[1];
    assert HasVst2Extension(p) by {
      assert lower[|lower| - 3..] == ".so";
    }
  }

  /** Where lowercasing does not change the path, or no content scan is asked
      for, the code as written and the corrected detection agree. */
  lemma {:induction false} AsWrittenAgreesOnLowerCasePaths(path: string, checkContents: bool, fs: FileSystem)
    requires ToLower(path) == path || !checkContents
    ensures IsVst2AsWritten(path, checkContents, fs) == Ok(IsVst2(path, checkContents, fs))
  {
  }

  lemma {:induction false} LowerDistributes(a: string, b: string)
    ensures ToLower(a + b) == ToLower(a) + ToLower(b)
  {
    assert forall i :: 0 <= i < |a + b| ==> ToLower(a + b)[i] == (ToLower(a) + ToLower(b))[i];
  }

  lemma {:induction false} LowerIdempotent(s: string)
    ensures ToLower(ToLower(s)) == ToLower(s)
  {
    assert forall i :: 0 <= i < |s| ==> ToLower(ToLower(s))[i] == ToLower(s)[i];
  }

  /** All three tests ignore letter case. */
  lemma {:induction false} DetectionIgnoresCase(path: string)
    ensures IsVst3(path) == IsVst3(ToLower(path))
    ensures IsClap(path) == IsClap(ToLower(path))
    ensures HasVst2Extension(path) == HasVst2Extension(ToLower(path))
  {
    LowerIdempotent(path);
  }

  /** Upper-case extensions are recognised. */
  lemma {:induction false} UpperCaseExtensions(stem: string)
    ensures IsVst3(stem + ".VST3") && IsClap(stem + ".CLAP")
    ensures HasVst2Extension(stem + ".DLL") && HasVst2Extension(stem + ".SO") && HasVst2Extension(stem + ".VST")
  {
    LowerDistributes(stem, ".VST3");
    LowerDistributes(stem, ".CLAP");
    LowerDistributes(stem, ".DLL");
    LowerDistributes(stem, ".SO");
    LowerDistributes(stem, ".VST");
    assert ToLower(".VST3") == ".vst3";
    assert ToLower(".CLAP") == ".clap";
    assert ToLower(".DLL") == ".dll";
    assert ToLower(".SO") == ".so";
    assert ToLower(".VST") == ".vst";
  }

  lemma LastCharOfSuffix(s: string, suffix: string)
    requires suffix != [] && EndsWith(s, suffix)
    ensures s[|s| - 1] == suffix[|suffix| - 1]
  {
    assert s[|s| - |suffix|..][|suffix| - 1] == s[|s| - 1];
  }

  /** No path is classified as more than one format: the five suffixes end in
      five different characters. */
  lemma {:induction false} FormatsAreExclusive(path: string)
    ensures !(HasVst2Extension(path) && IsVst3(path))
    ensures !(HasVst2Extension(path) && IsClap(path))
    ensures !(IsVst3(path) && IsClap(path))
  {
    var lower := ToLower(path);
    if EndsWith(lower, ".vst3") { LastCharOfSuffix(lower, ".vst3"); }
    if EndsWith(lower, ".clap") { LastCharOfSuffix(lower, ".clap"); }
    if EndsWith(lower, ".dll") { LastCharOfSuffix(lower, ".dll"); }
    if EndsWith(lower, ".so") { LastCharOfSuffix(lower, ".so"); }
    if EndsWith(lower, ".vst") { LastCharOfSuffix(lower, ".vst"); }
  }
}
