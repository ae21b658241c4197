/**
 * The code-combining utility (gabung_kode.py): walk the working directory
 * top-down, never descending into the excluded directories, and copy every
 * file whose name ends with one of the code extensions into one output
 * file, each under a numbered header carrying its path relative to the
 * root. A file that cannot be read keeps its header and number, is
 * reported, and the walk goes on.
 *
 * The directory tree is a value; reading a file is an oracle that returns
 * the file's text or the error it raised.
 */
module Combine {
  import opened Wrappers
  import opened Decimal

  /** CODE_EXTENSIONS: a name is selected when it ends with one of these. */
  const CodeExtensions: set<string> := {
    ".js", ".mjs", ".cjs", ".jsx", ".ts", ".tsx", ".html", ".htm",
    ".css", ".scss", ".sass", ".less", ".vue", ".svelte", ".svg",
    ".coffee", ".lit", ".elm",
    ".py", ".rb", ".php", ".java", ".go", ".rs", ".c", ".cpp",
    ".cs", ".h", ".hpp", ".pl", ".ex", ".exs", ".kt", ".kts", ".scala",
    ".r", ".jl", ".dart", ".swift",
    ".sh", ".bash", ".zsh", ".ps1", ".psm1", ".bat", ".cmd", ".lua",
    ".vbs", ".fish",
    ".sql", ".graphql", ".gql", ".cypher", ".prisma",
    ".ipynb", ".rmd", ".sas", ".jl", ".mat", ".pickle", ".pkl", ".ndjson",
    ".json", ".xml", ".yml", ".yaml", ".toml", ".ini", ".env",
    ".cfg", ".properties", ".conf", ".ini.sample",
    ".erb", ".ejs", ".hbs", ".pug", ".j2", ".jinja2", ".twig", ".mustache",
    ".md", ".rst", ".adoc", ".tex", ".txt", ".org", ".asciidoc",
    "Dockerfile", ".dockerfile", ".gitignore", ".gitattributes", ".editorconfig",
    ".travis.yml", ".circleci", ".github/workflows", ".gitlab-ci.yml", ".k8s.yaml",
    ".makefile", ".mk", ".gradle", ".pom", ".psd1"
  }

  /** EXCLUDE_DIRS: directory names the walk never enters, at any depth. */
  const ExcludeDirs: set<string> := {
    "node_modules", ".git", "dist", "build", "vendor",
    "__pycache__", ".vscode", ".idea", "venv"
  }

  /** The two configuration sets the walk consults. */
  datatype Filter = Filter(extensions: set<string>, excluded: set<string>)

  /** The script's configuration. */
  const Configured: Filter := Filter(CodeExtensions, ExcludeDirs)

  /** str.endswith */
  predicate EndsWith(s: string, suffix: string)
  {
    |suffix| <= |s| && s[|s| - |suffix|..] == suffix
  }

  /** The filter `any(filename.endswith(ext) for ext in CODE_EXTENSIONS)`: some configured extension is a suffix of the name. */
  predicate IsCodeFile(filename: string, f: Filter)
  {
    exists ext :: ext in f.extensions && EndsWith(filename, ext)
  }

  /** A suffix containing '/' never ends a name without one, so ".github/workflows" selects nothing. */
  lemma SlashSuffixNeverMatches(filename: string, ext: string)
    requires '/' in ext && '/' !in filename
    ensures !EndsWith(filename, ext)
  {
  }

  /** ".github/workflows" is configured, but no file name can match it. */
  lemma WorkflowsEntryIsDead(filename: string)
    requires '/' !in filename
    ensures ".github/workflows" in CodeExtensions
    ensures !EndsWith(filename, ".github/workflows")
  {
    SlashSuffixNeverMatches(filename, ".github/workflows");
  }

  /** The match is on suffixes, not extensions: any name ending in "Dockerfile" is selected, "app.Dockerfile" included. */
  lemma DockerfileSuffixSelected(filename: string)
    requires EndsWith(filename, "Dockerfile")
    ensures IsCodeFile(filename, Configured)
  {
    assert "Dockerfile" in Configured.extensions;
  }

  /** A directory: its name, the names of its files and its subdirectories, in listing order. */
  datatype Dir = Dir(name: string, files: seq<string>, subdirs: seq<Dir>)

  /** A path as its components, relative to the root of the walk. */
  type Path = seq<string>

  /** os.path.relpath of the joined path: the components joined by '/'. */
  function RelPath(p: Path): string
  {
    if |p| == 0 then "" else if |p| == 1 then p[0] else RelPath(p[..|p| - 1]) + "/" + p[|p| - 1]
  }

  /** The number of directories in a tree, the walk's termination measure. */
  function Size(d: Dir): nat
    decreases d
  {
    1 + SizeAll(d.subdirs)
  }

  function SizeAll(ds: seq<Dir>): nat
    decreases ds
  {
    if ds == [] then 0 else Size(ds[0]) + SizeAll(ds[1..])
  }

  /** The in-place edit `dirnames[:] = [d for d in dirnames if d not in EXCLUDE_DIRS]`: the subdirectories whose names are not excluded, in order. */
  function Pruned(ds: seq<Dir>, f: Filter): seq<Dir>
  {
    if ds == [] then []
    else (if ds[0].name in f.excluded then [] else [ds[0]]) + Pruned(ds[1..], f)
  }

  /** The selected files of one directory `dir`, in listing order. */
  function CodeFiles(files: seq<string>, dir: Path, f: Filter): seq<Path>
  {
    if files == [] then []
    else (if IsCodeFile(files[0], f) then [dir + [files[0]]] else []) + CodeFiles(files[1..], dir, f)
  }

  /**
   * The selected files, in the order the top-down walk meets them, of the
   * tree `d` found at `dir`: its own files first, then each subdirectory
   * whose name is not excluded, in listing order.
   */
  function Walk(d: Dir, dir: Path, f: Filter): seq<Path>
    decreases Size(d), 0
  {
    CodeFiles(d.files, dir, f) + WalkAll(d.subdirs, dir, f)
  }

  function WalkAll(ds: seq<Dir>, dir: Path, f: Filter): seq<Path>
    decreases SizeAll(ds), 1
  {
    if ds == [] then []
    else
      assert Size(ds[0]) >= 1;
      (if ds[0].name in f.excluded then [] else Walk(ds[0], dir + [ds[0].name], f)) + WalkAll(ds[1..], dir, f)
  }

  /** The file at path `q` (relative to `d`) exists in the tree, excluded directories or not. */
  ghost predicate InTree(d: Dir, q: Path)
    decreases d
  {
    (|q| == 1 && q[0] in d.files) ||
    (|q| > 1 && exists s :: s in d.subdirs && s.name == q[0] && InTree(s, q[1..]))
  }

  /** No directory on the path to the file is excluded. */
  ghost predicate OutsideExcluded(q: Path, f: Filter)
  {
    forall k :: 0 <= k < |q| - 1 ==> q[k] !in f.excluded
  }

  /** `p` lies strictly below the directory `dir`. */
  ghost predicate Below(dir: Path, p: Path)
  {
    |dir| < |p| && p[..|dir|] == dir
  }

  /** Below `dir + [n]` means below `dir`, one level further, through `n`. */
  lemma BelowChild(dir: Path, n: string, p: Path)
    ensures Below(dir + [n], p) <==> Below(dir, p) && |p| > |dir| + 1 && p[|dir|] == n
  {
    if Below(dir, p) && |p| > |dir| + 1 && p[|dir|] == n {
      assert p[..|dir| + 1] == p[..|dir|] + [p[|dir|]];
    }
    if Below(dir + [n], p) {
      assert p[..|dir|] == p[..|dir| + 1][..|dir|];
    }
  }

  /** A path of two or more components avoids excluded directories iff its first one is not excluded and the rest avoids them. */
  lemma OutsideExcludedCons(q: Path, f: Filter)
    requires |q| > 1
    ensures OutsideExcluded(q, f) <==> q[0] !in f.excluded && OutsideExcluded(q[1..], f)
  {
    if q[0] !in f.excluded && OutsideExcluded(q[1..], f) {
      forall k | 0 <= k < |q| - 1
        ensures q[k] !in f.excluded
      {
        if k > 0 {
          assert q[k] == q[1..][k - 1];
        }
      }
    }
  }

  /** A directory's selected files are the code files directly in it. */
  lemma {:induction false} CodeFilesMembers(files: seq<string>, dir: Path, f: Filter)
    ensures forall p :: p in CodeFiles(files, dir, f) <==>
      |p| == |dir| + 1 && p[..|dir|] == dir && p[|dir|] in files && IsCodeFile(p[|dir|], f)
  {
    if files != [] {
      CodeFilesMembers(files[1..], dir, f);
      forall p | |p| == |dir| + 1 && p[..|dir|] == dir
        ensures p == dir + [p[|dir|]]
      {
        assert p == p[..|dir|] + [p[|dir|]];
      }
      assert forall f :: f in files <==> f == files[0] || f in files[1..];
    }
  }

  /**
   * The walk selects exactly the code files of the tree that lie under no
   * excluded directory: every such file is visited, and no other.
   */
  lemma {:induction false} WalkMembers(d: Dir, dir: Path, f: Filter)
    ensures forall p :: p in Walk(d, dir, f) <==>
      Below(dir, p) && InTree(d, p[|dir|..]) && IsCodeFile(p[|p| - 1], f) && OutsideExcluded(p[|dir|..], f)
    decreases Size(d), 0
  {
    CodeFilesMembers(d.files, dir, f);
    WalkAllMembers(d.subdirs, dir, f);
    forall p
      ensures p in Walk(d, dir, f) <==>
        Below(dir, p) && InTree(d, p[|dir|..]) && IsCodeFile(p[|p| - 1], f) && OutsideExcluded(p[|dir|..], f)
    {
      if Below(dir, p) {
        var q := p[|dir|..];
        assert q[0] == p[|dir|] && q[1..] == p[|dir| + 1..];
        if |q| == 1 {
          assert p[|p| - 1] == p[|dir|];
        } else {
          OutsideExcludedCons(q, f);
        }
      }
    }
  }

  /** `p` is a code file below `dir`, reached through one of `ds` and no excluded directory. */
  ghost predicate SelectedBelow(ds: seq<Dir>, dir: Path, p: Path, f: Filter)
  {
    && Below(dir, p) && |p| > |dir| + 1
    && (exists s :: s in ds && s.name == p[|dir|] && InTree(s, p[|dir| + 1..]))
    && IsCodeFile(p[|p| - 1], f) && OutsideExcluded(p[|dir|..], f)
  }

  lemma {:induction false} WalkAllMembers(ds: seq<Dir>, dir: Path, f: Filter)
    ensures forall p :: p in WalkAll(ds, dir, f) <==> SelectedBelow(ds, dir, p, f)
    decreases SizeAll(ds), 1
  {
    if ds != [] {
      assert Size(ds[0]) >= 1;
      var n := ds[0].name;
      WalkMembers(ds[0], dir + [n], f);
      WalkAllMembers(ds[1..], dir, f);
      var first := if n in f.excluded then [] else Walk(ds[0], dir + [n], f);
      assert WalkAll(ds, dir, f) == first + WalkAll(ds[1..], dir, f);
      forall p
        ensures p in WalkAll(ds, dir, f) <==> SelectedBelow(ds, dir, p, f)
      {
        BelowChild(dir, n, p);
        if Below(dir, p) && |p| > |dir| + 1 {
          var q := p[|dir|..];
          OutsideExcludedCons(q, f);
          assert q[0] == p[|dir|] && q[1..] == p[|dir| + 1..];
          assert p[|dir + [n]|..] == p[|dir| + 1..];
          assert (exists s :: s in ds && s.name == p[|dir|] && InTree(s, p[|dir| + 1..])) <==>
            (n == p[|dir|] && InTree(ds[0], p[|dir| + 1..])) ||
            (exists s :: s in ds[1..] && s.name == p[|dir|] && InTree(s, p[|dir| + 1..])) by {
            assert forall s :: s in ds <==> s == ds[0] || s in ds[1..];
          }
        }
      }
    }
  }

  /** The walk of the whole tree selects exactly its code files that lie under no excluded directory. */
  lemma WalkSelectsExactly(root: Dir, f: Filter)
    ensures forall p :: p in Walk(root, [], f) <==> InTree(root, p) && IsCodeFile(p[|p| - 1], f) && OutsideExcluded(p, f)
  {
    var top: Path := [];
    WalkMembers(root, top, f);
    forall p: Path
      ensures p[|top|..] == p && (|p| > 0 ==> Below(top, p))
    {
    }
  }

  /** With the script's configuration, no selected file lies inside node_modules, .git, build or another excluded directory. */
  lemma ExcludedNeverVisited(root: Dir)
    ensures forall p, k :: p in Walk(root, [], Configured) && 0 <= k < |p| - 1 ==> p[k] !in ExcludeDirs
  {
    WalkSelectsExactly(root, Configured);
  }

  // ---------------------------------------------------------------------
  // The walk as os.walk performs it: a stack of directories still to visit
  // ---------------------------------------------------------------------

  /** The selected files of the directories still on the stack, each at its path. */
  function Pending(stack: seq<(Dir, Path)>, f: Filter): seq<Path>
  {
    if stack == [] then [] else Walk(stack[0].0, stack[0].1, f) + Pending(stack[1..], f)
  }

  /** The subdirectories pushed for a visited directory, each with its path. */
  function Kids(ds: seq<Dir>, dir: Path): seq<(Dir, Path)>
  {
    seq(|ds|, i requires 0 <= i < |ds| => (ds[i], dir + [ds[i].name]))
  }

  function StackSize(stack: seq<(Dir, Path)>): nat
  {
    if stack == [] then 0 else Size(stack[0].0) + StackSize(stack[1..])
  }

  lemma PendingPush(top: (Dir, Path), stack: seq<(Dir, Path)>, f: Filter)
    ensures Pending([top] + stack, f) == Walk(top.0, top.1, f) + Pending(stack, f)
    ensures StackSize([top] + stack) == Size(top.0) + StackSize(stack)
  {
    assert ([top] + stack)[0] == top && ([top] + stack)[1..] == stack;
  }

  /** Popping a directory off the stack: its own files come first, then its subdirectories, then the rest of the stack. */
  lemma PendingPop(stack: seq<(Dir, Path)>, f: Filter)
    requires stack != []
    ensures Pending(stack, f) ==
      CodeFiles(stack[0].0.files, stack[0].1, f) + (WalkAll(stack[0].0.subdirs, stack[0].1, f) + Pending(stack[1..], f))
    ensures StackSize(stack) == 1 + SizeAll(stack[0].0.subdirs) + StackSize(stack[1..])
  {
  }

  /**
   * One step of the walk: the files of the popped directory, then the
   * walk of the stack with its pruned subdirectories pushed, give what the
   * stack had pending; and the stack shrinks.
   */
  lemma PopAndPush(stack: seq<(Dir, Path)>, f: Filter, visited: seq<Path>, target: seq<Path>)
    requires stack != [] && visited + Pending(stack, f) == target
    ensures visited + CodeFiles(stack[0].0.files, stack[0].1, f)
      + Pending(Kids(Pruned(stack[0].0.subdirs, f), stack[0].1) + stack[1..], f) == target
    ensures StackSize(Kids(Pruned(stack[0].0.subdirs, f), stack[0].1) + stack[1..]) < StackSize(stack)
  {
    var d, dir, rest := stack[0].0, stack[0].1, stack[1..];
    var here := CodeFiles(d.files, dir, f);
    var below := WalkAll(d.subdirs, dir, f);
    var pushed := Kids(Pruned(d.subdirs, f), dir) + rest;
    var later := Pending(rest, f);
    assert Pending(pushed, f) == below + later && StackSize(pushed) <= SizeAll(d.subdirs) + StackSize(rest) by {
      PendingKids(d.subdirs, dir, rest, f);
    }
    assert Pending(stack, f) == here + (below + later) && StackSize(stack) == 1 + SizeAll(d.subdirs) + StackSize(rest) by {
      PendingPop(stack, f);
    }
    Regroup3(visited, here, below + later);
  }

  /** Concatenation regrouped. */
  lemma Regroup3<T>(a: seq<T>, b: seq<T>, c: seq<T>)
    ensures a + b + c == a + (b + c)
  {
  }

  /** Pruning then pushing: the pushed entries are the kept subdirectories, in order. */
  lemma PrunedKids(ds: seq<Dir>, dir: Path, f: Filter)
    requires ds != []
    ensures Kids(Pruned(ds, f), dir) ==
      (if ds[0].name in f.excluded then [] else [(ds[0], dir + [ds[0].name])]) + Kids(Pruned(ds[1..], f), dir)
  {
    var head := if ds[0].name in f.excluded then [] else [ds[0]];
    assert Pruned(ds, f) == head + Pruned(ds[1..], f);
    KidsAppend(head, Pruned(ds[1..], f), dir);
    if ds[0].name in f.excluded {
      assert Kids(head, dir) == [];
    } else {
      assert Kids(head, dir) == [(ds[0], dir + [ds[0].name])];
    }
  }

  /** Pushing two runs of subdirectories pushes one after the other. */
  lemma KidsAppend(a: seq<Dir>, b: seq<Dir>, dir: Path)
    ensures Kids(a + b, dir) == Kids(a, dir) + Kids(b, dir)
  {
    assert forall i :: 0 <= i < |a| ==> (a + b)[i] == a[i];
    assert forall i :: |a| <= i < |a| + |b| ==> (a + b)[i] == b[i - |a|];
  }

  /** Pushing the pruned subdirectories of a directory schedules exactly the walk of those subdirectories, ahead of the rest. */
  lemma {:induction false} PendingKids(ds: seq<Dir>, dir: Path, rest: seq<(Dir, Path)>, f: Filter)
    ensures Pending(Kids(Pruned(ds, f), dir) + rest, f) == WalkAll(ds, dir, f) + Pending(rest, f)
    ensures StackSize(Kids(Pruned(ds, f), dir) + rest) <= SizeAll(ds) + StackSize(rest)
  {
    var kids := Kids(Pruned(ds, f), dir);
    if ds == [] {
      assert kids + rest == rest;
    } else {
      PendingKids(ds[1..], dir, rest, f);
      PrunedKids(ds, dir, f);
      var tailKids := Kids(Pruned(ds[1..], f), dir);
      var tail := tailKids + rest;
      assert SizeAll(ds) == Size(ds[0]) + SizeAll(ds[1..]);
      if ds[0].name in f.excluded {
        assert kids == tailKids;
        assert WalkAll(ds, dir, f) == WalkAll(ds[1..], dir, f);
      } else {
        var top := (ds[0], dir + [ds[0].name]);
        assert kids == [top] + tailKids;
        Regroup3([top], tailKids, rest);
        PendingPush(top, tail, f);
        assert WalkAll(ds, dir, f) == Walk(ds[0], dir + [ds[0].name], f) + WalkAll(ds[1..], dir, f);
        Regroup3(Walk(ds[0], dir + [ds[0].name], f), WalkAll(ds[1..], dir, f), Pending(rest, f));
      }
    }
  }

  // ---------------------------------------------------------------------
  // The output file and the printed report
  // ---------------------------------------------------------------------

  /** What reading a file gives: its text, or the exception raised. */
  datatype ReadResult = Contents(text: string) | ReadError(message: string)

  /** "=" * 80 */
  const Rule: string := "================================================================================"

  /** The header `main()` writes before the k-th selected file: a rule, "FILE k: <path>", a rule and a blank line. */
  function Header(k: nat, rel: string): string
  {
    HeaderStart + NatToString(k) + ": " + rel + HeaderEnd
  }

  /** What every header has before the number, and after the path. */
  const HeaderStart: string := Rule + "\n" + "FILE "
  const HeaderEnd: string := "\n" + Rule + "\n\n"

  /** Three writes regrouped around the part between the two rules. */
  lemma Regroup(rule: string, a: string, b: string, digits: string, sep: string, rel: string, c: string, e: string)
    ensures (rule + a) + (b + digits + sep + rel + c) + (rule + e) == (rule + a + b) + digits + sep + rel + (c + rule + e)
  {
  }

  /** The header as the three `outfile.write` calls of the header put it out. */
  lemma HeaderPieces(k: nat, rel: string)
    ensures Header(k, rel) == (Rule + "\n") + ("FILE " + NatToString(k) + ": " + rel + "\n") + (Rule + "\n\n")
  {
    Regroup(Rule, "\n", "FILE ", NatToString(k), ": ", rel, "\n", "\n\n");
  }

  /** The length of the run of digits `s` starts with. */
  function DigitRun(s: string): (n: nat)
    ensures n <= |s| && forall i :: 0 <= i < n ==> IsDigit(s[i])
    ensures n < |s| ==> !IsDigit(s[n])
  {
    if s == [] || !IsDigit(s[0]) then 0 else 1 + DigitRun(s[1..])
  }

  lemma {:induction false} DigitRunPrefix(digits: string, rest: string)
    requires forall i :: 0 <= i < |digits| ==> IsDigit(digits[i])
    requires rest != [] && !IsDigit(rest[0])
    ensures DigitRun(digits + rest) == |digits|
  {
    if digits != [] {
      assert (digits + rest)[1..] == digits[1..] + rest;
      DigitRunPrefix(digits[1..], rest);
    }
  }

  /** Reads the number and the path back out of `h`, framed by `start` and `end`. */
  function ParseFramed(h: string, start: string, end: string): Option<(nat, string)>
  {
    if |h| < |start| + |end| || h[..|start|] != start || h[|h| - |end|..] != end then None
    else ParseMiddle(h[|start|..|h| - |end|])
  }

  /** Reads "<digits>: <path>". */
  function ParseMiddle(middle: string): Option<(nat, string)>
  {
    var n := DigitRun(middle);
    if n == 0 || |middle| < n + 2 || middle[n..n + 2] != ": " then None
    else Some((ParseDecimal(middle[..n]), middle[n + 2..]))
  }

  /** Reads the file number and the relative path back out of a header. */
  function ParseHeader(h: string): Option<(nat, string)>
  {
    ParseFramed(h, HeaderStart, HeaderEnd)
  }

  /** A text framed by `start` and `end`: both frames and the text between can be sliced back out. */
  lemma Framed(start: string, middle: string, end: string)
    ensures var h := start + middle + end;
      |h| == |start| + |middle| + |end| && h[..|start|] == start && h[|h| - |end|..] == end &&
      h[|start|..|h| - |end|] == middle
  {
  }

  /** The number and the path, with the separator between them, can be sliced back out. */
  lemma Separated(digits: string, sep: string, rel: string)
    ensures var middle := digits + sep + rel;
      middle[..|digits|] == digits && middle[|digits|..|digits| + |sep|] == sep && middle[|digits| + |sep|..] == rel
  {
  }

  /** Whatever the frames, what lies between them is read. */
  lemma FramedMiddle(start: string, middle: string, end: string)
    ensures ParseFramed(start + middle + end, start, end) == ParseMiddle(middle)
  {
    Framed(start, middle, end);
  }

  /** The number and the path read back from "<number>: <path>". */
  lemma MiddleRoundTrip(k: nat, rel: string)
    ensures ParseMiddle(NatToString(k) + ": " + rel) == Some((k, rel))
  {
    var digits := NatToString(k);
    var middle := digits + ": " + rel;
    assert middle[..|digits|] == digits && middle[|digits|..|digits| + 2] == ": " && middle[|digits| + 2..] == rel by {
      Separated(digits, ": ", rel);
    }
    assert DigitRun(middle) == |digits| by {
      assert middle == digits + (": " + rel);
      DigitRunPrefix(digits, ": " + rel);
    }
    assert |digits| > 0 && ParseDecimal(digits) == k by {
      ParseNatToString(k);
    }
  }

  /** A header determines the file's number and relative path: reading it back gives both. */
  lemma HeaderRoundTrip(k: nat, rel: string)
    ensures ParseHeader(Header(k, rel)) == Some((k, rel))
  {
    var middle := NatToString(k) + ": " + rel;
    assert Header(k, rel) == HeaderStart + middle + HeaderEnd;
    FramedMiddle(HeaderStart, middle, HeaderEnd);
    MiddleRoundTrip(k, rel);
  }

  /** Three writes in a row append their concatenation. */
  lemma WritesAppend(prior: string, a: string, b: string, c: string)
    ensures prior + a + b + c == prior + (a + b + c)
  {
  }

  /** What the k-th selected file adds to the output; a failed read leaves its header in place. */
  function Section(k: nat, rel: string, r: ReadResult): string
  {
    Header(k, rel) + (if r.Contents? then r.text + "\n\n" else "")
  }

  /** The sections of the selected files, numbered 1, 2, 3, ... in visit order, failed reads included. */
  function Sections(files: seq<Path>, read: Path -> ReadResult): (ss: seq<string>)
    ensures |ss| == |files|
  {
    seq(|files|, i requires 0 <= i < |files| => Section(i + 1, RelPath(files[i]), read(files[i])))
  }

  function Concat(ss: seq<string>): string
  {
    if ss == [] then "" else Concat(ss[..|ss| - 1]) + ss[|ss| - 1]
  }

  /** The text of the output file after the given selected files. */
  function Output(files: seq<Path>, read: Path -> ReadResult): string
  {
    Concat(Sections(files, read))
  }

  /** The line printed for the k-th selected file: "[k] Added: …" after a read, "Failed to read file …" after an exception. */
  function Report(k: nat, rel: string, r: ReadResult): string
  {
    if r.Contents? then "[" + NatToString(k) + "] Added: " + rel
    else "Failed to read file " + rel + ": " + r.message
  }

  function Reports(files: seq<Path>, read: Path -> ReadResult): (rs: seq<string>)
    ensures |rs| == |files|
  {
    seq(|files|, i requires 0 <= i < |files| => Report(i + 1, RelPath(files[i]), read(files[i])))
  }

  function StartLine(outputFile: string): string
  {
    "Starting process, output will be saved as: " + outputFile + "\n"
  }

  function DoneLine(count: nat, outputFile: string): string
  {
    "\nProcess completed! " + NatToString(count) + " files were combined into " + outputFile
  }

  /** Everything printed, line by line, for the given selected files. */
  function Log(files: seq<Path>, read: Path -> ReadResult, outputFile: string): seq<string>
  {
    [StartLine(outputFile)] + Reports(files, read) + [DoneLine(|files|, outputFile)]
  }

  /** One more selected file appends its own section, numbered one past the files before it. */
  lemma OutputAppend(files: seq<Path>, p: Path, read: Path -> ReadResult)
    ensures Output(files + [p], read) == Output(files, read) + Section(|files| + 1, RelPath(p), read(p))
    ensures Reports(files + [p], read) == Reports(files, read) + [Report(|files| + 1, RelPath(p), read(p))]
  {
    var ss := Sections(files + [p], read);
    assert ss[..|files|] == Sections(files, read);
    assert Reports(files + [p], read) == Reports(files, read) + [Report(|files| + 1, RelPath(p), read(p))];
  }

  /** The output file, written piece by piece. */
  class OutFile {
    var text: string

    constructor ()
      ensures text == ""
    {
      text := "";
    }

    method Write(s: string)
      modifies this
      ensures text == old(text) + s
    {
      text := text + s;
    }
  }

  /**
   * The body of the `try` block in `main()` for the k-th selected file:
   * write the header, then the file's text if it can be read; returns the
   * line printed for it.
   */
  method AddFile(outfile: OutFile, filePath: Path, k: nat, read: Path -> ReadResult) returns (line: string)
    modifies outfile
    ensures outfile.text == old(outfile.text) + Section(k, RelPath(filePath), read(filePath))
    ensures line == Report(k, RelPath(filePath), read(filePath))
  {
    var relativePath := RelPath(filePath);
    ghost var prior := outfile.text;
    outfile.Write(Rule + "\n");
    outfile.Write("FILE " + NatToString(k) + ": " + relativePath + "\n");
    outfile.Write(Rule + "\n\n");
    HeaderPieces(k, relativePath);
    WritesAppend(prior, Rule + "\n", "FILE " + NatToString(k) + ": " + relativePath + "\n", Rule + "\n\n");
    ghost var header := outfile.text;
    assert header == prior + Header(k, relativePath);
    var contents := read(filePath);
    if contents.Contents? {
      outfile.Write(contents.text);
      outfile.Write("\n\n");
      assert outfile.text == header + (contents.text + "\n\n");
      line := "[" + NatToString(k) + "] Added: " + relativePath;
    } else {
      line := "Failed to read file " + relativePath + ": " + contents.message;
    }
  }

  /**
   * The body of `if any(filename.endswith(ext) …)`: bump the counter, add the file and
   * keep the output and the printed lines in step with the files done.
   */
  method AddSelected(outfile: OutFile, filePath: Path, read: Path -> ReadResult, ghost start: string,
                     count0: nat, log0: seq<string>, ghost done0: seq<Path>)
    returns (fileCount: nat, log: seq<string>, ghost done: seq<Path>)
    modifies outfile
    requires count0 == |done0| && outfile.text == Output(done0, read)
    requires log0 == [start] + Reports(done0, read)
    ensures done == done0 + [filePath]
    ensures fileCount == |done| && outfile.text == Output(done, read)
    ensures log == [start] + Reports(done, read)
  {
    fileCount := count0 + 1;
    var line := AddFile(outfile, filePath, fileCount, read);
    log := log0 + [line];
    OutputAppend(done0, filePath, read);
    done := done0 + [filePath];
  }

  /**
   * The loop `for filename in filenames` over one directory's file names: each selected
   * file bumps the counter, gets its header, then its text and a report
   * line if it can be read, or only an error line if it cannot.
   */
  method AddFiles(outfile: OutFile, filenames: seq<string>, dirpath: Path, read: Path -> ReadResult,
                  config: Filter, ghost start: string, count0: nat, log0: seq<string>, ghost done0: seq<Path>)
    returns (fileCount: nat, log: seq<string>, ghost done: seq<Path>)
    modifies outfile
    requires count0 == |done0| && outfile.text == Output(done0, read)
    requires log0 == [start] + Reports(done0, read)
    ensures done == done0 + CodeFiles(filenames, dirpath, config)
    ensures fileCount == |done| && outfile.text == Output(done, read)
    ensures log == [start] + Reports(done, read)
  {
    fileCount, log, done := count0, log0, done0;
    ghost var here := CodeFiles(filenames, dirpath, config);
    assert filenames[0..] == filenames;
    var j := 0;
    while j < |filenames|
      invariant 0 <= j <= |filenames|
      invariant done + CodeFiles(filenames[j..], dirpath, config) == done0 + here
      invariant fileCount == |done| && outfile.text == Output(done, read)
      invariant log == [start] + Reports(done, read)
    {
      var filename := filenames[j];
      ghost var rest := CodeFiles(filenames[j + 1..], dirpath, config);
      assert CodeFiles(filenames[j..], dirpath, config) ==
        (if IsCodeFile(filename, config) then [dirpath + [filename]] else []) + rest by {
        assert filenames[j..][0] == filename && filenames[j..][1..] == filenames[j + 1..];
      }
      if IsCodeFile(filename, config) {
        var filePath := dirpath + [filename];
        ghost var prev := done;
        fileCount, log, done := AddSelected(outfile, filePath, read, start, fileCount, log, done);
        Regroup3(prev, [filePath], rest);
      } else {
        assert done + rest == done0 + here by {
          assert [] + rest == rest;
        }
      }
      j := j + 1;
    }
  }

  /**
   * main(): walk the tree top-down from the root, pruning the excluded
   * subdirectories of each directory before the walk descends into them,
   * and add each directory's selected files. Returns the output file's
   * text, the final counter and the printed lines. The configuration sets
   * are a parameter; the script runs with `Configured`.
   */
  method Combine(root: Dir, read: Path -> ReadResult, outputFile: string, config: Filter)
    returns (text: string, fileCount: nat, log: seq<string>)
    ensures fileCount == |Walk(root, [], config)|
    ensures text == Output(Walk(root, [], config), read)
    ensures log == Log(Walk(root, [], config), read, outputFile)
  {
    fileCount := 0;
    var outfile := new OutFile();
    log := [StartLine(outputFile)];
    ghost var done: seq<Path> := [];
    ghost var target := Walk(root, [], config);
    var stack: seq<(Dir, Path)> := [(root, [])];
    assert Pending(stack, config) == target;
    while stack != []
      invariant done + Pending(stack, config) == target
      invariant fileCount == |done| && outfile.text == Output(done, read)
      invariant log == [StartLine(outputFile)] + Reports(done, read)
      decreases StackSize(stack)
    {
      var dirpath := stack[0].1;
      var filenames := stack[0].0.files;
      var dirnames := stack[0].0.subdirs;
      PopAndPush(stack, config, done, target);
      dirnames := Pruned(dirnames, config);
      fileCount, log, done := AddFiles(outfile, filenames, dirpath, read, config, StartLine(outputFile), fileCount, log, done);
      stack := Kids(dirnames, dirpath) + stack[1..];
    }
    assert done == target;
    log := log + [DoneLine(fileCount, outputFile)];
    text := outfile.text;
  }
}
