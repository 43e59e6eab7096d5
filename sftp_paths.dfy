/**
 * The string and sequence rules of the SFTP routes: `normalize_path`, how
 * the directory listing picks the directory to list and forms each entry's
 * path, and the "last 100 lines" window of the operation history.
 * Filesystem and network calls are not modelled; the server's home
 * directory (what `sftp.normalize('.')` answers) is a parameter.
 */
module SftpPaths {

  /** Every backslash turned into a forward slash (`str.replace('\\', '/')`). */
  function ForwardSlashes(s: string): (r: string)
    ensures |r| == |s|
    ensures forall i :: 0 <= i < |s| ==> r[i] == if s[i] == '\\' then '/' else s[i]
    decreases |s|
  {
    if s == [] then [] else [if s[0] == '\\' then '/' else s[0]] + ForwardSlashes(s[1..])
  }

  /** `str.rstrip('/')`. */
  function StripTrailingSlashes(s: string): (r: string)
    ensures |r| <= |s| && r == s[..|r|]
    ensures forall i :: |r| <= i < |s| ==> s[i] == '/'
    ensures r == [] || r[|r| - 1] != '/'
    decreases |s|
  {
    if s != [] && s[|s| - 1] == '/' then StripTrailingSlashes(s[..|s| - 1]) else s
  }

  /** `normalize_path`. */
  function NormalizePath(path: string): (r: string)
    ensures '\\' !in r
    ensures r == [] || r[|r| - 1] != '/'
  {
    StripTrailingSlashes(ForwardSlashes(path))
  }

  /** A string without backslashes is its own forward-slash form. */
  lemma {:induction false} ForwardSlashesFixed(s: string)
    requires '\\' !in s
    ensures ForwardSlashes(s) == s
  {
    var r := ForwardSlashes(s);
    forall i | 0 <= i < |s| ensures r[i] == s[i] {
      assert s[i] in s;
    }
  }

  /** `normalize_path` is a rewrite of backslashes followed by dropping trailing slashes. */
  lemma NormalizePathShape(path: string)
    ensures |NormalizePath(path)| <= |path|
    ensures NormalizePath(path) == ForwardSlashes(path)[..|NormalizePath(path)|]
    ensures forall i :: |NormalizePath(path)| <= i < |path| ==> path[i] == '/' || path[i] == '\\'
  {
    var f := ForwardSlashes(path);
    var r := NormalizePath(path);
    forall i | |r| <= i < |path| ensures path[i] == '/' || path[i] == '\\' {
      assert f[i] == '/';
    }
  }

  /** Normalizing twice is normalizing once. */
  lemma NormalizePathIdempotent(path: string)
    ensures NormalizePath(NormalizePath(path)) == NormalizePath(path)
  {
    var r := NormalizePath(path);
    ForwardSlashesFixed(r);
  }

  /** A normalized path is never "/": a root path normalizes to the empty string. */
  lemma NormalizePathNeverRoot(path: string)
    ensures NormalizePath(path) != "/"
  {
  }

  /** A path made only of slashes and backslashes normalizes to the empty string. */
  lemma {:induction false} SlashesNormalizeToEmpty(path: string)
    requires forall i :: 0 <= i < |path| ==> path[i] == '/' || path[i] == '\\'
    ensures NormalizePath(path) == ""
  {
  }

  /**
   * The directory `sftp_list_directory` lists: `forceRoot` lists "/";
   * otherwise "/", "root" and "" after normalizing list the home directory,
   * and any other normalized path is listed as it is.
   */
  function ListingDirectory(rawPath: string, forceRoot: bool, home: string): (r: string)
    ensures forceRoot ==> r == "/"
    ensures !forceRoot && NormalizePath(rawPath) in {"", "root"} ==> r == home
    ensures !forceRoot && NormalizePath(rawPath) !in {"", "root"} ==> r == NormalizePath(rawPath)
  {
    var path := NormalizePath(rawPath);
    if forceRoot then "/"
    else if path == "/" || path == "root" || path == "" then home
    else path
  }

  /** Asking for "/" (or any run of slashes) lists the home directory, not the root. */
  lemma RootRequestListsHome(rawPath: string, home: string)
    requires forall i :: 0 <= i < |rawPath| ==> rawPath[i] == '/' || rawPath[i] == '\\'
    ensures ListingDirectory(rawPath, false, home) == home
  {
    SlashesNormalizeToEmpty(rawPath);
  }

  predicate StartsWith(s: string, prefix: string) {
    |prefix| <= |s| && s[..|prefix|] == prefix
  }

  /** `os.path.join(dir, name)` with POSIX rules. */
  function JoinPath(dir: string, name: string): (r: string)
    ensures StartsWith(name, "/") ==> r == name
    ensures !StartsWith(name, "/") ==> r == dir + (if dir == [] || dir[|dir| - 1] == '/' then "" else "/") + name
  {
    if StartsWith(name, "/") then name
    else if dir == [] || dir[|dir| - 1] == '/' then dir + name
    else dir + "/" + name
  }

  /**
   * The `path` of a listed entry: the joined path with backslashes turned
   * into slashes, then one leading "./" removed.
   */
  function EntryPath(dir: string, name: string): (r: string)
    ensures '\\' !in r
    ensures ForwardSlashes(JoinPath(dir, name)) == r || ForwardSlashes(JoinPath(dir, name)) == "./" + r
    ensures ForwardSlashes(JoinPath(dir, name)) == "./" + r <==> StartsWith(ForwardSlashes(JoinPath(dir, name)), "./")
  {
    var joined := ForwardSlashes(JoinPath(dir, name));
    if StartsWith(joined, "./") then
      assert joined == "./" + joined[2..];
      joined[2..]
    else joined
  }

  /**
   * Entries listed under "." get their own name as path, hidden entries
   * such as ".bashrc" included; a backslash in the name comes back as '/'.
   */
  lemma DotEntryPath(name: string)
    requires name == [] || name[0] != '/'
    ensures EntryPath(".", name) == ForwardSlashes(name)
    ensures '\\' !in name ==> EntryPath(".", name) == name
  {
    DotJoin(name);
    DotForwardSlashes(name);
    var f := ForwardSlashes("./" + name);
    assert StartsWith(f, "./") && f[2..] == ForwardSlashes(name);
    if '\\' !in name {
      ForwardSlashesFixed(name);
    }
  }

  /** Under ".", a name that is not absolute is joined as "./" + name. */
  lemma DotJoin(name: string)
    requires name == [] || name[0] != '/'
    ensures JoinPath(".", name) == "./" + name
  {
    assert !StartsWith(name, "/");
  }

  lemma DotForwardSlashes(name: string)
    ensures ForwardSlashes("./" + name) == "./" + ForwardSlashes(name)
  {
    ForwardSlashesAppend("./", name);
    ForwardSlashesFixed("./");
  }

  /** The backslash rewrite works character by character, so it distributes over concatenation. */
  lemma ForwardSlashesAppend(a: string, b: string)
    ensures ForwardSlashes(a + b) == ForwardSlashes(a) + ForwardSlashes(b)
  {
    var l, r := ForwardSlashes(a + b), ForwardSlashes(a) + ForwardSlashes(b);
    forall i | 0 <= i < |a + b| ensures l[i] == r[i] {
      if i < |a| {
        assert (a + b)[i] == a[i];
      } else {
        assert (a + b)[i] == b[i - |a|];
      }
    }
  }

  /** `''.join(lines)`: the lines written one after another. */
  function Concat(lines: seq<string>): (r: string)
    ensures |lines| == 1 ==> r == lines[0]
    ensures r == [] <==> forall k :: 0 <= k < |lines| ==> lines[k] == []
    decreases |lines|
  {
    if lines == [] then "" else lines[0] + Concat(lines[1..])
  }

  lemma {:induction false} ConcatAppend(a: seq<string>, b: seq<string>)
    ensures Concat(a + b) == Concat(a) + Concat(b)
    decreases |a|
  {
    if a == [] {
      assert a + b == b;
    } else {
      assert (a + b)[1..] == a[1..] + b;
      ConcatAppend(a[1..], b);
    }
  }

  /** Length of the first line of `s`, its newline included. */
  function FirstLineLength(s: string): (n: nat)
    requires s != []
    ensures 0 < n <= |s|
    ensures forall i :: 0 <= i < n - 1 ==> s[i] != '\n'
    ensures n < |s| ==> s[n - 1] == '\n'
    decreases |s|
  {
    if s[0] == '\n' || |s| == 1 then 1 else 1 + FirstLineLength(s[1..])
  }

  /** A line as `readlines` returns it: non-empty, with a newline at most at its end. */
  predicate IsLine(line: string) {
    line != [] && forall i :: 0 <= i < |line| - 1 ==> line[i] != '\n'
  }

  predicate EndsInNewline(line: string) {
    line != [] && line[|line| - 1] == '\n'
  }

  /** `readlines()`: the text cut after every newline. */
  function ReadLines(text: string): (lines: seq<string>)
    ensures Concat(lines) == text
    ensures forall k :: 0 <= k < |lines| ==> IsLine(lines[k])
    ensures forall k :: 0 <= k < |lines| - 1 ==> EndsInNewline(lines[k])
    decreases |text|
  {
    if text == [] then []
    else
      var n := FirstLineLength(text);
      assert text == text[..n] + text[n..];
      [text[..n]] + ReadLines(text[n..])
  }

  /** `lines[-100:]`. */
  function LastLines(lines: seq<string>, n: nat): (r: seq<string>)
    ensures |r| == if |lines| < n then |lines| else n
    ensures r == lines[|lines| - |r|..]
  {
    if |lines| <= n then lines else lines[|lines| - n..]
  }

  const HistoryLines: nat := 100

  /** `get_sftp_history`: the text of the last 100 lines of the log, a suffix of the log. */
  function History(log: string): (r: string)
    ensures |r| <= |log| && r == log[|log| - |r|..]
  {
    var lines := ReadLines(log);
    var tail := LastLines(lines, HistoryLines);
    assert lines == lines[..|lines| - |tail|] + tail;
    ConcatAppend(lines[..|lines| - |tail|], tail);
    Concat(tail)
  }

  /**
   * The history is a suffix of the log made of its last lines: exactly 100
   * of them when the log is longer, the whole log otherwise.
   */
  lemma HistoryIsTail(log: string)
    ensures |History(log)| <= |log| && History(log) == log[|log| - |History(log)|..]
    ensures |ReadLines(History(log))| ==
              if |ReadLines(log)| < HistoryLines then |ReadLines(log)| else HistoryLines
    ensures ReadLines(History(log)) == ReadLines(log)[|ReadLines(log)| - |ReadLines(History(log))|..]
    ensures |ReadLines(log)| <= HistoryLines ==> History(log) == log
  {
    var lines := ReadLines(log);
    var tail := LastLines(lines, HistoryLines);
    ReadLinesOfLines(tail);
  }

  /** Reading back text made of `readlines` lines gives the same lines. */
  lemma {:induction false} ReadLinesOfLines(lines: seq<string>)
    requires forall k :: 0 <= k < |lines| ==> IsLine(lines[k])
    requires forall k :: 0 <= k < |lines| - 1 ==> EndsInNewline(lines[k])
    ensures ReadLines(Concat(lines)) == lines
    decreases |lines|
  {
    if lines != [] {
      var text := Concat(lines);
      var first, rest := lines[0], Concat(lines[1..]);
      assert text == first + rest;
      if |lines| > 1 {
        assert EndsInNewline(lines[0]);
      } else {
        assert rest == [];
      }
      FirstLineOfJoin(first, rest);
      assert text[..|first|] == first && text[|first|..] == rest;
      ReadLinesOfLines(lines[1..]);
    }
  }

  /** The first line of `first + rest` is `first`, when `first` is a line that ends in a newline if more follows. */
  lemma FirstLineOfJoin(first: string, rest: string)
    requires IsLine(first)
    requires rest != [] ==> EndsInNewline(first)
    ensures FirstLineLength(first + rest) == |first|
  {
    var text := first + rest;
    assert forall i :: 0 <= i < |first| ==> text[i] == first[i];
  }
}
