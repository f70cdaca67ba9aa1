/**
 * The default output path of the converter: when no output path is given, the input
 * path with its extension replaced by ".html". The expression the converter uses cuts
 * the path at its last '.', wherever that '.' is; a corrected version cuts only at an
 * extension of the file name.
 */
module OutputPath {
  import opened Wrappers

  /** The position of the last `c` in `s`, if there is one. */
  function LastIndexOf(s: string, c: char): (r: Option<nat>)
    ensures r.Some? ==> r.value < |s| && s[r.value] == c && c !in s[r.value + 1..]
    ensures r.None? <==> c !in s
  {
    if s == [] then None
    else if s[|s| - 1] == c then Some(|s| - 1)
    else
      var r := LastIndexOf(s[..|s| - 1], c);
      assert s == s[..|s| - 1] + [s[|s| - 1]];
      if r.Some? then
        assert s[r.value + 1..] == s[..|s| - 1][r.value + 1..] + [s[|s| - 1]];
        r
      else
        r
  }

  // ---------------------------------------------------------------- as written

  /**
   * What `path.rsplit('.', 1)[0]` keeps: everything before the last '.', or the whole
   * path when it has none.
   */
  function Stem(path: string): (stem: string)
    ensures stem <= path
    ensures '.' !in path ==> stem == path
    ensures '.' in path ==> |stem| < |path| && path[|stem|] == '.' && '.' !in path[|stem| + 1..]
  {
    match LastIndexOf(path, '.')
    case None => path
    case Some(i) => path[..i]
  }

  /**
   * The default output path as the converter computes it: the input cut just before
   * its last '.' (or kept whole when it has none), followed by ".html".
   */
  function DefaultOutputPath(path: string): (out: string)
    ensures |out| >= 5 && out[|out| - 5..] == ".html"
    ensures var stem := out[..|out| - 5];
            stem <= path
            && ('.' !in path ==> stem == path)
            && ('.' in path ==> |stem| < |path| && path[|stem|] == '.' && '.' !in path[|stem| + 1..])
  {
    var stem := Stem(path);
    assert (stem + ".html")[..|stem|] == stem;
    stem + ".html"
  }

  /** A path whose last component after the final '.' is `ext` gets that suffix replaced by ".html". */
  lemma {:induction false} ReplacesLastSuffix(stem: string, ext: string)
    requires '.' !in ext
    ensures DefaultOutputPath(stem + "." + ext) == stem + ".html"
  {
    var path := stem + "." + ext;
    assert path[|stem|] == '.';
    assert path[|stem| + 1..] == ext;
    var i := LastIndexOf(path, '.');
    assert i.Some? by {
      assert '.' in path;
    }
    assert path[..|stem|] == stem;
  }

  /** A '.' in a directory name is taken for the extension: "data.v2/resume" gives "data.html". */
  lemma DottedDirectory()
    ensures DefaultOutputPath("data.v2/resume") == "data.html"
  {
    var p := "data.v2/resume";
    assert '.' !in p[5..];
    assert LastIndexOf(p, '.') == Some(4);
    assert p[..4] == "data";
  }

  /** A relative path "./resume" loses its whole name and gives the hidden file ".html". */
  lemma LeadingDotDirectory()
    ensures DefaultOutputPath("./resume") == ".html"
  {
    var p := "./resume";
    assert '.' !in p[1..];
    assert LastIndexOf(p, '.') == Some(0);
  }

  // ---------------------------------------------------------------- corrected

  /** Where the file name starts: just after the last '/', or at 0. */
  function BaseStart(path: string): (b: nat)
    ensures b <= |path| && '/' !in path[b..]
    ensures b > 0 ==> path[b - 1] == '/'
  {
    match LastIndexOf(path, '/')
    case None => 0
    case Some(i) => i + 1
  }

  /**
   * The position of the '.' that starts the file name's extension, if it has one: the
   * last '.' of the file name, when a character other than '.' comes before it in the
   * file name (so ".profile" and "..x" have no extension).
   */
  function ExtensionDot(path: string): (r: Option<nat>)
    ensures r.Some? ==> BaseStart(path) < r.value < |path| && path[r.value] == '.'
                        && '.' !in path[r.value + 1..]
                        && exists j | BaseStart(path) <= j < r.value :: path[j] != '.'
    ensures r.None? ==> forall j, k | BaseStart(path) <= j < k < |path| && path[k] == '.' :: path[j] == '.'
  {
    var b := BaseStart(path);
    match LastIndexOf(path, '.')
    case None => None
    case Some(i) =>
      if b <= i && exists j | b <= j < i :: path[j] != '.' then Some(i) else None
  }

  /**
   * The default output path as intended: the file name's extension replaced by ".html".
   * The result is a prefix of the input followed by ".html"; that prefix keeps the whole
   * directory part, and it is the whole input when the file name has no extension.
   */
  function ReplaceExtension(path: string): (out: string)
    ensures |out| >= 5 && out[|out| - 5..] == ".html"
    ensures var stem := out[..|out| - 5];
            stem <= path && BaseStart(path) <= |stem|
            && (ExtensionDot(path).None? ==> stem == path)
            && (ExtensionDot(path).Some? ==> |stem| == ExtensionDot(path).value)
  {
    var stem := match ExtensionDot(path) case None => path case Some(i) => path[..i];
    assert (stem + ".html")[..|stem|] == stem;
    stem + ".html"
  }

  /** A file name without an extension just gets ".html" appended. */
  lemma NoExtensionAppends(path: string)
    requires '.' !in path[BaseStart(path)..]
    ensures ReplaceExtension(path) == path + ".html"
  {
    match LastIndexOf(path, '.')
    case None =>
    case Some(i) =>
  }

  /** The converter's first counterexample comes out right: "data.v2/resume" gives "data.v2/resume.html". */
  lemma CorrectedDottedDirectory()
    ensures ReplaceExtension("data.v2/resume") == "data.v2/resume.html"
  {
    var p := "data.v2/resume";
    assert '/' !in p[8..];
    assert LastIndexOf(p, '/') == Some(7);
    NoExtensionAppends(p);
  }

  /** The converter's second counterexample comes out right: "./resume" gives "./resume.html". */
  lemma CorrectedLeadingDot()
    ensures ReplaceExtension("./resume") == "./resume.html"
  {
    var q := "./resume";
    assert '/' !in q[2..];
    assert LastIndexOf(q, '/') == Some(1);
    NoExtensionAppends(q);
  }

  /** Only the last extension of a file name is replaced: "a.tar.gz" gives "a.tar.html". */
  lemma MultiDotExtension()
    ensures ReplaceExtension("a.tar.gz") == "a.tar.html"
  {
    var p := "a.tar.gz";
    assert '/' !in p;
    assert BaseStart(p) == 0;
    assert '.' !in p[6..];
    assert LastIndexOf(p, '.') == Some(5);
    assert p[0] != '.';
    assert ExtensionDot(p) == Some(5);
    assert p[..5] == "a.tar";
  }

  /**
   * Round trip: a directory, a file name with no '.' and an extension with neither '.'
   * nor '/' give the directory and the file name with ".html".
   */
  lemma {:induction false} ReplacesExtension(dir: string, name: string, ext: string)
    requires name != [] && '.' !in name && '/' !in name && '.' !in ext && '/' !in ext
    ensures ReplaceExtension(dir + name + "." + ext) == dir + name + ".html"
  {
    var path := dir + name + "." + ext;
    var d := |dir| + |name|;
    ReplacesLastSuffix(dir + name, ext);
    var i := LastIndexOf(path, '.');
    assert i == Some(d) by {
      assert path[..d] == dir + name;
    }
    var b := BaseStart(path);
    assert b <= |dir|;
    assert path[|dir|] == name[0] && name[0] != '.';
    assert ExtensionDot(path) == Some(d);
    assert path[..d] == dir + name;
  }

  /**
   * Where the file name has an extension, the corrected path and the converter's agree;
   * they differ only for file names without one.
   */
  lemma AgreesWithExtension(path: string)
    requires ExtensionDot(path).Some?
    ensures ReplaceExtension(path) == DefaultOutputPath(path)
  {
  }
}
