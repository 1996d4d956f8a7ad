/** The string computations of the environment: its name and base directory,
    taken from the specification file's path the way Python's posixpath.split
    and posixpath.splitext do it, the upper-cased stage, the secrets table name
    and the default name of the outputs file. */
module Names {
  import opened Wrappers
  import opened Values

  /** Position of the last `c` in `s`, or -1 (`str.rfind`). */
  function LastIndex(s: string, c: char): (r: int)
    ensures -1 <= r < |s|
    ensures r >= 0 ==> s[r] == c
    ensures forall j :: r < j < |s| ==> s[j] != c
    decreases |s|
  {
    if s == [] then -1
    else if s[|s| - 1] == c then |s| - 1
    else LastIndex(s[..|s| - 1], c)
  }

  /** The tail of posixpath.split: everything after the last '/'. */
  function FileName(path: string): string {
    path[LastIndex(path, '/') + 1..]
  }

  predicate AllSlashes(s: string) {
    forall j :: 0 <= j < |s| ==> s[j] == '/'
  }

  /** `s.rstrip('/')` */
  function TrimSlashes(s: string): string
    decreases |s|
  {
    if s != [] && s[|s| - 1] == '/' then TrimSlashes(s[..|s| - 1]) else s
  }

  /** The head of posixpath.split: everything up to the last '/', with trailing
      slashes removed unless it is made of slashes only. */
  function DirName(path: string): string {
    var head := path[..LastIndex(path, '/') + 1];
    if head != [] && !AllSlashes(head) then TrimSlashes(head) else head
  }

  /** The root of posixpath.splitext applied to a name without '/': the name up
      to its last '.', unless only dots precede that '.' (a leading dot does not
      start an extension). */
  function StripExtension(name: string): string {
    var d := LastIndex(name, '.');
    if d >= 0 && exists j :: 0 <= j < d && name[j] != '.' then name[..d] else name
  }

  /** The environment name: the specification file's name without its directory
      and its extension. */
  function EnvName(path: string): (name: string)
    ensures '/' !in name
  {
    var file := FileName(path);
    assert '/' !in file by {
      var k := LastIndex(path, '/');
      forall j | 0 <= j < |file| ensures file[j] != '/' {
        assert file[j] == path[k + 1 + j];
      }
    }
    StripExtension(file)
  }

  lemma {:induction false} LastIndexPastSuffix(s: string, t: string, c: char)
    requires c !in t
    ensures LastIndex(s + t, c) == LastIndex(s, c)
    decreases |t|
  {
    if t == [] {
      assert s + t == s;
    } else {
      var t' := t[..|t| - 1];
      assert (s + t)[..|s + t| - 1] == s + t';
      assert c !in t' by {
        forall j | 0 <= j < |t'| ensures t'[j] != c { assert t'[j] == t[j]; }
      }
      LastIndexPastSuffix(s, t', c);
    }
  }

  /** The file name of `<dir><file>` is `<file>` when `<dir>` is empty or ends in '/'. */
  lemma FileNameAfterDir(dir: string, file: string)
    requires dir == [] || dir[|dir| - 1] == '/'
    requires '/' !in file
    ensures FileName(dir + file) == file
  {
    LastIndexPastSuffix(dir, file, '/');
    assert LastIndex(dir + file, '/') + 1 == |dir|;
    assert (dir + file)[|dir|..] == file;
  }

  /** The root of `<stem>.<ext>` is `<stem>` when `<stem>` is not made of dots only. */
  lemma StripExtensionOfStem(stem: string, ext: string)
    requires '.' !in ext
    requires exists j :: 0 <= j < |stem| && stem[j] != '.'
    ensures StripExtension(stem + "." + ext) == stem
  {
    var file := stem + "." + ext;
    assert file == (stem + ".") + ext;
    LastIndexPastSuffix(stem + ".", ext, '.');
    assert LastIndex(stem + ".", '.') == |stem|;
    var j :| 0 <= j < |stem| && stem[j] != '.';
    assert file[j] == stem[j];
    assert file[..|stem|] == stem;
  }

  /** A specification file `<dir><stem>.<ext>` names the environment `<stem>`,
      as long as the stem is not made of dots only. */
  lemma EnvNameOfSpecFile(dir: string, stem: string, ext: string)
    requires dir == [] || dir[|dir| - 1] == '/'
    requires '/' !in stem && '/' !in ext && '.' !in ext
    requires exists j :: 0 <= j < |stem| && stem[j] != '.'
    ensures EnvName(dir + stem + "." + ext) == stem
  {
    var file := stem + "." + ext;
    assert dir + stem + "." + ext == dir + file;
    assert '/' !in file by {
      forall j | 0 <= j < |file| ensures file[j] != '/' {
        if j < |stem| { assert file[j] == stem[j]; }
        else if j > |stem| { assert file[j] == ext[j - |stem| - 1]; }
      }
    }
    FileNameAfterDir(dir, file);
    StripExtensionOfStem(stem, ext);
  }

  /** A specification file `<dir>/<file>` has `<dir>` as its base directory when
      `<dir>` does not end in '/'. */
  lemma DirNameOfSpecFile(dir: string, file: string)
    requires dir != [] && dir[|dir| - 1] != '/'
    requires '/' !in file
    ensures DirName(dir + "/" + file) == dir
  {
    var path := dir + "/" + file;
    assert path == (dir + "/") + file;
    LastIndexPastSuffix(dir + "/", file, '/');
    var head := path[..LastIndex(path, '/') + 1];
    assert head == dir + "/";
    assert !AllSlashes(head) by { assert head[|dir| - 1] != '/'; }
    assert head[..|head| - 1] == dir;
    assert TrimSlashes(head) == TrimSlashes(dir);
    assert TrimSlashes(dir) == dir;
  }

  function UpperChar(c: char): char {
    if 'a' <= c <= 'z' then (c as int - 32) as char else c
  }

  /** `str.upper()` on ASCII letters. */
  function Upper(s: string): (u: string)
    ensures |u| == |s|
    ensures forall i :: 0 <= i < |s| && 'a' <= s[i] <= 'z' ==> u[i] as int == s[i] as int - 32
    ensures forall i :: 0 <= i < |s| && !('a' <= s[i] <= 'z') ==> u[i] == s[i]
    decreases |s|
  {
    if s == [] then [] else [UpperChar(s[0])] + Upper(s[1..])
  }

  /** `stage and stage.upper()`: None stays None, the empty stage stays empty. */
  function StageOf(stage: Option<string>): Option<string> {
    match stage
    case None => None
    case Some(s) => Some(Upper(s))
  }

  /** How `str.format` renders the stage. */
  function StageText(stage: Option<string>): string {
    match stage
    case None => "None"
    case Some(s) => s
  }

  /** `"secrets_{}_{}".format(name, stage)` */
  function TableName(name: string, stage: Option<string>): string {
    "secrets_" + name + "_" + StageText(stage)
  }

  /** The file write_outputs writes to: the given one, or
      `<name>-<STAGE>.outputs.yaml`; without a non-empty stage `suffix` is never
      bound and the default cannot be formed. */
  function OutputsPath(name: string, stage: Option<string>, outputFile: Option<string>): Result<string, Error> {
    if outputFile.Some? then Ok(outputFile.value)
    else if stage.Some? && |stage.value| > 0 then Ok(name + "-" + stage.value + ".outputs.yaml")
    else Err(UnboundLocalError("suffix"))
  }

  /** An explicit file is used as given; the default exists exactly when the
      stage is non-empty and then ends in `-<STAGE>.outputs.yaml`. */
  lemma OutputsPathCases(name: string, stage: Option<string>, outputFile: Option<string>)
    ensures outputFile.Some? ==> OutputsPath(name, stage, outputFile) == Ok(outputFile.value)
    ensures outputFile.None? ==>
      (OutputsPath(name, stage, outputFile).Ok? <==> stage.Some? && stage.value != "")
    ensures outputFile.None? && stage.Some? && stage.value != "" ==>
      var p := OutputsPath(name, stage, outputFile).value;
      && p[..|name|] == name
      && p[|name|..] == "-" + stage.value + ".outputs.yaml"
    ensures outputFile.None? && (stage.None? || stage.value == "") ==>
      OutputsPath(name, stage, outputFile) == Err(UnboundLocalError("suffix"))
  {
  }
}
