/** The string logic of the `Multipass` orchestrator: how a command for the VM
    becomes one `multipass exec` invocation, how upload and download resolve
    remote paths against the workspace directory, how a rendered template is
    named, and the exact provider commands of the VM lifecycle. */
module Forwarding {
  import opened Wrappers
  import opened Text
  import opened PosixPaths
  import opened ShellWords

  /** The workspace directory inside the VM that relative remote paths resolve against. */
  const Workdir: string := "/home/ubuntu/workspace"

  /** `Workdir` as a pathlib path. */
  const WorkdirPath: PurePath := PurePath("/", WorkdirParts)

  /** The components of `Workdir`. */
  const WorkdirParts: seq<string> := ["home", "ubuntu", "workspace"]

  // ---------------------------------------------------------------------------
  // Command forwarding (`_build_forwarded_cmd`)

  /** A command holding a pipe is wrapped in single quotes as it stands, so
      that the local shell passes the whole pipeline on; other commands are
      left alone. Embedded single quotes are not escaped. */
  function QuoteCommand(command: string): string {
    if '|' in command then "'" + command + "'" else command
  }

  /** `become` puts `sudo ` in front of the (already quoted) command. */
  function Privileged(cmd: string, become: bool): string {
    if become then "sudo " + cmd else cmd
  }

  /** A working directory not starting with `/` is appended to the workspace
      directory with a plain string concatenation; an absolute one is kept. */
  function ResolveCwd(cwd: string): string {
    if StartsWith(cwd, "/") then cwd else Workdir + "/" + cwd
  }

  /** The `--working-directory` flag, or nothing when no directory is given. */
  function WorkdirFlag(cwd: Option<string>): string {
    match cwd
    case None => ""
    case Some(d) => "--working-directory " + ResolveCwd(d)
  }

  /** The local shell command that runs `command` inside the VM `machineName`.
      The defaults are those of `cmd`: privileged, in the workspace directory. */
  function BuildForwardedCmd(machineName: string, command: string, become: bool := true,
                             cwd: Option<string> := Some(Workdir)): string
  {
    "multipass exec " + WorkdirFlag(cwd) + " " + machineName + " -- "
    + Privileged(QuoteCommand(command), become)
  }

  /** The arguments the flag contributes once the shell has split it. */
  function FlagWords(cwd: Option<string>): seq<string> {
    match cwd
    case None => []
    case Some(d) => ["--working-directory", ResolveCwd(d)]
  }

  /** The invocation is always `multipass exec [flag] <machine> -- [sudo] <cmd>`:
      with no working directory there are two blanks before the machine name,
      which the shell treats as one, so the session's VM is always the target
      and the command always follows `--`. When the quoted command is not one
      simple command of literal words (`Words` gives `None`), neither is the
      whole line. */
  lemma ForwardedInvocationWords(machineName: string, command: string, become: bool, cwd: Option<string>)
    requires IsPlainWord(machineName)
    requires cwd.Some? ==> IsPlainWord(ResolveCwd(cwd.value))
    ensures Words(BuildForwardedCmd(machineName, command, become, cwd))
         == Prepend(["multipass", "exec"] + FlagWords(cwd) + [machineName, "--"]
                    + (if become then ["sudo"] else []),
                    Words(QuoteCommand(command)))
  {
    var q := Privileged(QuoteCommand(command), become);
    var done := ["multipass", "exec"] + FlagWords(cwd) + [machineName, "--"];
    InvocationPrefix(machineName, q, cwd);
    PrivilegedWords(QuoteCommand(command), become, done);
  }

  /** Everything up to `--` splits into the fixed words, the flag and the machine name. */
  lemma InvocationPrefix(machineName: string, q: string, cwd: Option<string>)
    requires IsPlainWord(machineName)
    requires cwd.Some? ==> IsPlainWord(ResolveCwd(cwd.value))
    ensures Unquoted("multipass exec " + WorkdirFlag(cwd) + " " + machineName + " -- " + q, [], "", false)
         == Unquoted(q, ["multipass", "exec"] + FlagWords(cwd) + [machineName, "--"], "", false)
  {
    var ws := ["multipass", "exec"] + FlagWords(cwd);
    var tail := Spaced([machineName, "--"]) + q;
    if cwd.None? {
      InvocationTextNone(machineName, q);
      LeadingWordsNone(tail);
      assert ws == ["multipass", "exec"];
    } else {
      InvocationTextSome(machineName, q, ResolveCwd(cwd.value));
      LeadingWordsSome(ResolveCwd(cwd.value), tail);
      assert FlagWords(cwd) == ["--working-directory", ResolveCwd(cwd.value)];
    }
    LowerWordPlain("--");
    SpacedWords([machineName, "--"], q, ws);
  }

  lemma LeadingWordsNone(tail: string)
    ensures Unquoted(Spaced(["multipass", "exec"]) + (" " + tail), [], "", false)
         == Unquoted(tail, ["multipass", "exec"], "", false)
  {
    LowerWordPlain("multipass");
    LowerWordPlain("exec");
    SpacedWords(["multipass", "exec"], " " + tail, []);
    ExtraBlank(tail, ["multipass", "exec"]);
    assert [] + ["multipass", "exec"] == ["multipass", "exec"];
  }

  lemma LeadingWordsSome(dir: string, tail: string)
    requires IsPlainWord(dir)
    ensures Unquoted(Spaced(["multipass", "exec"] + ["--working-directory", dir]) + tail, [], "", false)
         == Unquoted(tail, ["multipass", "exec"] + ["--working-directory", dir], "", false)
  {
    var ws := ["multipass", "exec"] + ["--working-directory", dir];
    LowerWordPlain("multipass");
    LowerWordPlain("exec");
    LowerWordPlain("--working-directory");
    assert ws == ["multipass", "exec", "--working-directory", dir];
    SpacedWords(ws, tail, []);
    assert [] + ws == ws;
  }

  /** Without a working directory two blanks stand before the machine name. */
  lemma InvocationTextNone(machineName: string, q: string)
    ensures "multipass exec " + WorkdirFlag(None) + " " + machineName + " -- " + q
         == Spaced(["multipass", "exec"]) + (" " + (Spaced([machineName, "--"]) + q))
  {
    assert Spaced([machineName, "--"]) == machineName + " -- " by {
      assert Spaced(["--"]) == "-- ";
    }
    assert Spaced(["multipass", "exec"]) == "multipass exec " by {
      assert Spaced(["exec"]) == "exec ";
    }
    assert "multipass exec " + "" + " " + machineName + " -- " + q
        == "multipass exec " + (" " + ((machineName + " -- ") + q));
  }

  /** With a working directory the flag and its value are two more words. */
  lemma InvocationTextSome(machineName: string, q: string, dir: string)
    ensures "multipass exec " + ("--working-directory " + dir) + " " + machineName + " -- " + q
         == Spaced(["multipass", "exec"] + ["--working-directory", dir]) + (Spaced([machineName, "--"]) + q)
  {
    assert Spaced([machineName, "--"]) == machineName + " -- " by {
      assert Spaced(["--"]) == "-- ";
    }
    assert Spaced(["--working-directory", dir]) == "--working-directory " + dir + " " by {
      assert Spaced([dir]) == dir + " ";
    }
    assert Spaced(["multipass", "exec"]) == "multipass exec " by {
      assert Spaced(["exec"]) == "exec ";
    }
    SpacedConcat(["multipass", "exec"], ["--working-directory", dir]);
    var a, f := "multipass exec ", "--working-directory " + dir;
    assert a + f + " " + machineName + " -- " + q == a + (f + " ") + ((machineName + " -- ") + q);
  }

  /** `sudo`, when present, is one more word before the command's own. */
  lemma PrivilegedWords(qc: string, become: bool, done: seq<string>)
    ensures Unquoted(Privileged(qc, become), done, "", false)
         == Prepend(done + (if become then ["sudo"] else []), Words(qc))
  {
    if become {
      assert "sudo " + qc == "sudo" + " " + qc;
      WordThenBlank("sudo", qc, done);
      UnquotedAccumulates(qc, done + ["sudo"], "", false);
    } else {
      UnquotedAccumulates(qc, done, "", false);
      assert done + [] == done;
    }
  }

  /** A piped command without single quotes reaches `multipass` as exactly one
      argument, blanks and pipe characters included. */
  lemma QuotedPipeIsOneWord(command: string)
    requires '|' in command && '\'' !in command
    ensures Words(QuoteCommand(command)) == Some([command])
  {
    var s := QuoteCommand(command);
    assert s == "'" + (command + "'" + "");
    OpenQuote(command + "'" + "", [], "", false);
    QuotedStretch(command, "", [], "");
    assert "" + command == command;
    assert [] + [command] == [command];
  }

  /** As written, the quoting breaks on an embedded single quote: `a | b 'c d'`
      is split by the local shell into the two arguments `a | b c` and `d`. */
  lemma EmbeddedQuoteSplitsCommand()
    ensures Words(QuoteCommand("a | b 'c d'")) == Some(["a | b c", "d"])
  {
    var command := "a | b 'c d'";
    assert command[2] == '|';
    var s := QuoteCommand(command);
    assert s == "'" + ("a | b " + "'" + "c d''");
    OpenQuote("a | b " + "'" + "c d''", [], "", false);
    QuotedStretch("a | b ", "c d''", [], "");
    assert "" + "a | b " == "a | b ";
    assert "c d''" == "c" + (" " + "d''");
    LowerWordPlain("c");
    PlainStretch("c", " " + "d''", [], "a | b ");
    assert "a | b " + "c" == "a | b c";
    assert (" " + "d''")[1..] == "d''";
    assert Unquoted(" " + "d''", [], "a | b c", true) == Unquoted("d''", [] + ["a | b c"], "", false);
    assert [] + ["a | b c"] == ["a | b c"];
    assert "d''" == "d" + "''";
    LowerWordPlain("d");
    PlainStretch("d", "''", ["a | b c"], "");
    assert "" + "d" == "d";
    assert "''" == "'" + "'";
    OpenQuote("'", ["a | b c"], "d", true);
    assert "'" == "" + "'" + "";
    QuotedStretch("", "", ["a | b c"], "d");
    assert "d" + "" == "d";
    assert ["a | b c"] + ["d"] == ["a | b c", "d"];
  }

  /** The usual shell idiom for a single quote inside single quotes: close the
      quote, add an escaped quote, reopen. */
  function EscapeQuotes(s: string): string {
    if s == [] then []
    else (if s[0] == '\'' then "'\\''" else [s[0]]) + EscapeQuotes(s[1..])
  }

  /** The intended quoting: like `QuoteCommand`, but safe for embedded quotes. */
  function QuoteCommandEscaped(command: string): string {
    if '|' in command then "'" + EscapeQuotes(command) + "'" else command
  }

  lemma {:induction false} EscapedStretch(b: string, rest: string, done: seq<string>, word: string)
    ensures Quoted(EscapeQuotes(b) + "'" + rest, done, word) == Unquoted(rest, done, word + b, true)
  {
    if b == [] {
      QuotedStretch("", rest, done, word);
      assert EscapeQuotes(b) + "'" + rest == "" + "'" + rest;
    } else {
      var tail := EscapeQuotes(b[1..]) + "'" + rest;
      EscapedStretch(b[1..], rest, done, word + [b[0]]);
      assert word + [b[0]] + b[1..] == word + b;
      if b[0] == '\'' {
        assert EscapeQuotes(b) + "'" + rest == "'" + ("\\'" + ("'" + tail));
        assert Quoted("'" + ("\\'" + ("'" + tail)), done, word) == Unquoted("\\'" + ("'" + tail), done, word, true);
        assert Unquoted("\\'" + ("'" + tail), done, word, true) == Unquoted("'" + tail, done, word + ['\''], true);
        assert Unquoted("'" + tail, done, word + ['\''], true) == Quoted(tail, done, word + ['\'']);
      } else {
        assert EscapeQuotes(b) + "'" + rest == [b[0]] + tail;
        assert (EscapeQuotes(b) + "'" + rest)[1..] == tail;
      }
    }
  }

  /** With the escaping, every piped command is exactly one argument. */
  lemma EscapedPipeIsOneWord(command: string)
    requires '|' in command
    ensures Words(QuoteCommandEscaped(command)) == Some([command])
  {
    assert QuoteCommandEscaped(command) == "'" + (EscapeQuotes(command) + "'" + "");
    OpenQuote(EscapeQuotes(command) + "'" + "", [], "", false);
    EscapedStretch(command, "", [], "");
    assert "" + command == command;
    assert [] + [command] == [command];
  }

  lemma {:induction false} EscapeQuotesNoQuote(s: string)
    requires '\'' !in s
    ensures EscapeQuotes(s) == s
  {
    if s != [] {
      EscapeQuotesNoQuote(s[1..]);
    }
  }

  /** The escaping changes nothing for the commands that were already quoted correctly. */
  lemma EscapedAgreesWithoutQuotes(command: string)
    requires '\'' !in command
    ensures QuoteCommandEscaped(command) == QuoteCommand(command)
  {
    EscapeQuotesNoQuote(command);
  }

  /** Only a pipe triggers the quoting: a command with another operator
      (`cd src && make`, `cd 'a b' && make`, `a; b`, `x > f`) and no pipe is
      passed on as it stands, so the local shell reads the operator itself and
      the line is not one `multipass exec` call; what follows the operator runs
      on the host. This holds whenever the text before the operator splits
      into words on its own (its quotes closed) and does not end in a
      backslash. */
  lemma UnquotedOperatorNotForwarded(command: string, i: nat)
    requires '|' !in command
    requires i < |command| && IsSpecial(command[i])
    requires Words(command[..i]).Some?
    requires i == 0 || command[i - 1] != '\\'
    ensures QuoteCommand(command) == command
    ensures Words(QuoteCommand(command)) == None
  {
    assert command == command[..i] + command[i..];
    SpecialAfterScanned(command[..i], command[i..], [], "", false);
  }

  /** `foo | bar` with privilege and no working directory: `sudo` in front of the
      quoted pipeline, two blanks where the flag would be. */
  lemma PipedSudoScenario(machineName: string)
    ensures BuildForwardedCmd(machineName, "foo | bar", true, None)
         == "multipass exec  " + machineName + " -- sudo 'foo | bar'"
  {
    assert '|' in "foo | bar" by { assert "foo | bar"[4] == '|'; }
  }

  // ---------------------------------------------------------------------------
  // Working-directory resolution

  /** `Workdir` is printed from its components under the root. */
  lemma WorkdirText()
    ensures Workdir == Format(PurePath("/", WorkdirParts))
  {
    assert Workdir == "/" + ("home" + "/" + ("ubuntu" + "/" + "workspace"));
    WorkdirPartsJoined();
  }

  lemma WorkdirPartsJoined()
    ensures Format(PurePath("/", WorkdirParts)) == "/" + ("home" + "/" + ("ubuntu" + "/" + "workspace"))
  {
    assert JoinWith(WorkdirParts) == "home" + "/" + JoinWith(["ubuntu", "workspace"]);
    assert JoinWith(["ubuntu", "workspace"]) == "ubuntu" + "/" + "workspace";
  }

  lemma WorkdirNormal()
    ensures Normal(PurePath("/", WorkdirParts))
  {
    assert IsComponent("home");
  }

  /** pathlib reads `Workdir` as the root followed by its three components. */
  lemma WorkdirIsParsed()
    ensures Parse(Workdir) == WorkdirPath
    ensures Components(Workdir) == WorkdirParts
  {
    WorkdirText();
    WorkdirNormal();
    ParseFormat(PurePath("/", WorkdirParts));
    ParsePartsIgnoreRoot(Workdir);
  }

  /** Anything appended to `Workdir` after a slash keeps the single-slash root. */
  lemma UnderWorkdirRoot(rel: string)
    ensures SplitRoot(Workdir + "/" + rel).0 == "/"
  {
    var s := Workdir + "/" + rel;
    assert s[0] == '/' && s[1] == 'h';
    assert s[..1] == "/";
    assert s[1..][..1] != "/" by { assert s[1..][0] == 'h'; }
  }

  /** A string not starting with `/` parses to a relative path and conversely. */
  lemma RelativeIffNoSlash(s: string)
    ensures IsAbsolute(Parse(s)) <==> StartsWith(s, "/")
  {
  }

  /** A relative working directory denotes the workspace directory joined with
      it; an absolute one is used as given. Either way the result is absolute
      and resolving it again changes nothing. */
  lemma ResolveCwdJoins(cwd: string)
    ensures !StartsWith(cwd, "/") ==> Parse(ResolveCwd(cwd)) == JoinPath(Parse(Workdir), Parse(cwd))
    ensures StartsWith(cwd, "/") ==> ResolveCwd(cwd) == cwd
    ensures StartsWith(ResolveCwd(cwd), "/")
    ensures ResolveCwd(ResolveCwd(cwd)) == ResolveCwd(cwd)
  {
    if !StartsWith(cwd, "/") {
      WorkspaceRelative(cwd);
    }
  }

  /** The workspace directory followed by a slash and a relative path. */
  lemma WorkspaceRelative(rel: string)
    requires !StartsWith(rel, "/")
    ensures Parse(Workdir + "/" + rel) == PurePath("/", WorkdirParts + Components(rel))
    ensures Parse(Workdir + "/" + rel) == JoinPath(Parse(Workdir), Parse(rel))
  {
    var s := Workdir + "/" + rel;
    WorkdirIsParsed();
    UnderWorkdirRoot(rel);
    ParsePartsIgnoreRoot(s);
    ParsePartsIgnoreRoot(rel);
    ComponentsConcat(Workdir, rel);
  }

  // ---------------------------------------------------------------------------
  // File transfer (`upload`, `download`) and the rendered-template name

  /** The remote path `upload` writes to, as a pathlib path: a relative `dest`
      is joined under the workspace directory (pathlib drops `.` and repeated
      slashes), an absolute one is kept, and with `destdir` the base name of
      `src` is appended. */
  function UploadTarget(src: string, dest: string, destdir: bool): PurePath {
    var p := Parse(dest);
    var p1 := if IsAbsolute(p) then p else JoinPath(WorkdirPath, p);
    if destdir then JoinPath(p1, Parse(Name(Parse(src)))) else p1
  }

  /** The remote path as `upload` prints it into the transfer command. */
  function UploadPath(src: string, dest: string, destdir: bool): string {
    Format(UploadTarget(src, dest, destdir))
  }

  /** The transfer command `_transfer` issues for an upload; the file content
      goes to its standard input. */
  function UploadCmd(machineName: string, src: string, dest: string, destdir: bool): string {
    "multipass transfer - " + machineName + ":" + UploadPath(src, dest, destdir)
  }

  /** The remote path `download` reads from: a plain string concatenation under
      the workspace directory unless `src` starts with `/`. */
  function DownloadSource(src: string): string {
    if StartsWith(src, "/") then src else Workdir + "/" + src
  }

  /** The privileged transfer command of `download`; `absDest` is the local
      directory after `os.path.abspath`. */
  function DownloadCmd(machineName: string, src: string, absDest: string): string {
    "sudo multipass transfer " + machineName + ":" + DownloadSource(src) + " " + absDest
  }

  /** The base name of a path, as a list of at most one component. */
  function BaseNameParts(src: string): seq<string> {
    var n := Name(Parse(src));
    if n == "" then [] else [n]
  }

  lemma NameIsComponent(src: string)
    ensures Name(Parse(src)) == "" || IsComponent(Name(Parse(src)))
    ensures Parse(Name(Parse(src))) == PurePath("", BaseNameParts(src))
  {
    ParseNormal(src);
    var n := Name(Parse(src));
    if n != "" {
      SplitOnWord(n);
    } else {
      assert SplitOn("") == [""];
    }
  }

  /** Where an upload lands: under the root of an absolute `dest`, or under the
      workspace directory, followed by the components of `dest` and, with
      `destdir`, the base name of `src`. */
  lemma UploadTargetParts(src: string, dest: string, destdir: bool)
    ensures UploadTarget(src, dest, destdir)
         == PurePath(if StartsWith(dest, "/") then Parse(dest).root else "/",
                     (if StartsWith(dest, "/") then [] else WorkdirParts)
                     + Components(dest)
                     + (if destdir then BaseNameParts(src) else []))
  {
    ParsePartsIgnoreRoot(dest);
    NameIsComponent(src);
    if StartsWith(dest, "/") {
      assert [] + Components(dest) == Components(dest);
    }
    if !destdir {
      var ps := (if StartsWith(dest, "/") then [] else WorkdirParts) + Components(dest);
      assert ps + [] == ps;
    }
  }

  /** The upload target is always an absolute path of the form parsing produces. */
  lemma UploadTargetNormal(src: string, dest: string, destdir: bool)
    ensures Normal(UploadTarget(src, dest, destdir))
    ensures IsAbsolute(UploadTarget(src, dest, destdir))
  {
    UploadTargetParts(src, dest, destdir);
    var pre: seq<string> := if StartsWith(dest, "/") then [] else WorkdirParts;
    var name := if destdir then BaseNameParts(src) else [];
    ParseNormal(dest);
    ComponentsAreComponents(dest);
    WorkdirNormal();
    NameIsComponent(src);
    assert forall k :: 0 <= k < |name| ==> IsComponent(name[k]);
    AllComponentsConcat(pre, Components(dest));
    AllComponentsConcat(pre + Components(dest), name);
  }

  /** The printed target is absolute and already in the form pathlib prints:
      reading it back gives the target again. */
  lemma UploadPathResolves(src: string, dest: string, destdir: bool)
    ensures Parse(UploadPath(src, dest, destdir)) == UploadTarget(src, dest, destdir)
    ensures StartsWith(UploadPath(src, dest, destdir), "/")
    ensures Format(Parse(UploadPath(src, dest, destdir))) == UploadPath(src, dest, destdir)
  {
    var t := UploadTarget(src, dest, destdir);
    UploadTargetNormal(src, dest, destdir);
    ParseFormat(t);
    assert Format(t) == t.root + JoinWith(t.parts);
    assert Format(t)[0] == t.root[0] == '/';
  }

  /** The default `dest="."` with `destdir` puts the file in the workspace
      directory under the base name of `src`. */
  lemma UploadDefaultDest(src: string)
    requires Name(Parse(src)) != ""
    ensures UploadPath(src, ".", true) == Workdir + "/" + Name(Parse(src))
  {
    DefaultDestTarget(src);
    WorkdirChild(Name(Parse(src)));
  }

  lemma DefaultDestTarget(src: string)
    requires Name(Parse(src)) != ""
    ensures UploadTarget(src, ".", true) == PurePath("/", WorkdirParts + [Name(Parse(src))])
  {
    UploadTargetParts(src, ".", true);
    SplitOnWord(".");
    assert Components(".") == [];
    assert WorkdirParts + [] == WorkdirParts;
  }

  /** A child of the workspace directory is printed as `Workdir`, a slash and its name. */
  lemma WorkdirChild(n: string)
    ensures Format(PurePath("/", WorkdirParts + [n])) == Workdir + "/" + n
  {
    JoinWithSnoc(WorkdirParts, n);
    WorkdirText();
  }

  /** Upload and download agree on where a remote path is, although only
      upload normalises it: for every path `p`, the file an upload with
      `dest = p` (and no `destdir`) writes is the file a download of `p` reads. */
  lemma UploadDownloadSameFile(src: string, p: string)
    ensures Parse(DownloadSource(p)) == Parse(UploadPath(src, p, false))
  {
    UploadPathResolves(src, p, false);
    UploadTargetParts(src, p, false);
    ParsePartsIgnoreRoot(p);
    if !StartsWith(p, "/") {
      WorkspaceRelative(p);
    }
  }

  /** The default name of a rendered template: `template_name` with `.j2`
      removed once, then `.jinja2` removed once. */
  function DefaultRenderedName(templateName: string): (r: string)
    ensures StartsWith(templateName, r)
    ensures !EndsWith(templateName, ".j2") && !EndsWith(templateName, ".jinja2") ==> r == templateName
    ensures EndsWith(templateName, ".j2") && !EndsWith(templateName[..|templateName| - 3], ".jinja2")
            ==> r + ".j2" == templateName
    ensures !EndsWith(templateName, ".j2") && EndsWith(templateName, ".jinja2") ==> r + ".jinja2" == templateName
    ensures EndsWith(templateName, ".jinja2.j2") ==> r + ".jinja2.j2" == templateName
  {
    var a := RemoveSuffix(templateName, ".j2");
    var b := RemoveSuffix(a, ".jinja2");
    assert StartsWith(a, b);
    assert templateName[..|b|] == a[..|b|];
    JinjaThenJ2(templateName);
    b
  }

  /** A name ending in `.jinja2.j2` still ends in `.jinja2` once `.j2` is gone. */
  lemma JinjaThenJ2(t: string)
    ensures EndsWith(t, ".jinja2.j2") ==> EndsWith(t, ".j2") && EndsWith(t[..|t| - 3], ".jinja2")
  {
    if EndsWith(t, ".jinja2.j2") {
      var n := |t|;
      assert t[n - 3..] == t[n - 10..][7..];
      assert t[..n - 3][n - 10..] == t[n - 10..][..7];
    }
  }

  /** `x.jinja2.j2` loses both suffixes. */
  lemma DefaultRenderedNameBothSuffixes()
    ensures DefaultRenderedName("x.jinja2.j2") == "x"
  {
    assert "x.jinja2.j2" == "x.jinja2" + ".j2";
    assert EndsWith("x.jinja2.j2", ".j2");
    assert "x.jinja2" == "x" + ".jinja2";
    assert EndsWith("x.jinja2", ".jinja2");
  }

  /** `x.j2.jinja2` loses only the last suffix: `.j2` is removed first, when it is not yet last. */
  lemma DefaultRenderedNameOrder()
    ensures DefaultRenderedName("x.j2.jinja2") == "x.j2"
  {
    assert "x.j2.jinja2"[|"x.j2.jinja2"| - 3..] != ".j2" by {
      assert "x.j2.jinja2"[10] == '2' && "x.j2.jinja2"[8] != '.';
    }
    assert "x.j2.jinja2" == "x.j2" + ".jinja2";
    assert EndsWith("x.j2.jinja2", ".jinja2");
  }

  /** A rendered template is written into the scratch directory and uploaded
      with the default destination, so it lands in the workspace directory
      under its file name. */
  lemma RenderedTemplateTarget(tempdir: string, fname: string)
    requires IsComponent(fname)
    ensures Name(Parse(OsPathJoin(tempdir, fname))) == fname
    ensures UploadPath(OsPathJoin(tempdir, fname), ".", true) == Workdir + "/" + fname
  {
    JoinedName(tempdir, fname);
    UploadDefaultDest(OsPathJoin(tempdir, fname));
  }

  /** The file name of a component joined onto a directory is that component. */
  lemma JoinedName(dir: string, fname: string)
    requires IsComponent(fname)
    ensures Name(Parse(OsPathJoin(dir, fname))) == fname
  {
    var local := OsPathJoin(dir, fname);
    assert !StartsWith(fname, "/") by { assert fname[0] in fname; }
    OsPathJoinComponents(dir, fname);
    SplitOnWord(fname);
    DropEmptyKeeps([fname]);
    ParsePartsIgnoreRoot(local);
    var cs := Components(dir) + [fname];
    assert cs[|cs| - 1] == fname;
  }


  // ---------------------------------------------------------------------------
  // Provider commands of the VM lifecycle

  function AuthenticateCmd(auth: string): string {
    "sudo multipass authenticate " + auth
  }

  function LaunchCmd(machineName: string, cpus: int, memory: string, disk: string): string {
    "multipass launch --name " + machineName + " --cpus " + IntToString(cpus)
    + " --memory " + memory + " --disk " + disk
  }

  /** The workspace directory is created without privilege and without a working directory. */
  function MkdirCmd(machineName: string): string {
    BuildForwardedCmd(machineName, "mkdir -p " + Workdir, false, None)
  }

  function StopCmd(machineName: string): string {
    "multipass stop " + machineName
  }

  function DeleteCmd(machineName: string): string {
    "multipass delete " + machineName
  }

  predicate IsLaunch(cmd: string) {
    StartsWith(cmd, "multipass launch ")
  }

  predicate IsDelete(cmd: string) {
    StartsWith(cmd, "multipass delete ")
  }

  predicate IsStop(cmd: string) {
    StartsWith(cmd, "multipass stop ")
  }

  /** The lifecycle commands can be told apart by their first words, so a log
      of issued commands shows which of them ran. */
  lemma AuthenticateCmdKind(auth: string)
    ensures !IsLaunch(AuthenticateCmd(auth)) && !IsStop(AuthenticateCmd(auth)) && !IsDelete(AuthenticateCmd(auth))
  {
    var p := "sudo multipass authenticate ";
    MismatchConcat(p, auth, "multipass launch ", 0);
    MismatchConcat(p, auth, "multipass stop ", 0);
    MismatchConcat(p, auth, "multipass delete ", 0);
  }

  lemma LaunchCmdKind(m: string, cpus: int, memory: string, disk: string)
    ensures IsLaunch(LaunchCmd(m, cpus, memory, disk))
    ensures !IsStop(LaunchCmd(m, cpus, memory, disk)) && !IsDelete(LaunchCmd(m, cpus, memory, disk))
  {
    var p := "multipass launch ";
    var s0 := "multipass launch --name ";
    assert StartsWith(s0, p);
    var s1 := s0 + m;
    var s2 := s1 + " --cpus ";
    var s3 := s2 + IntToString(cpus);
    var s4 := s3 + " --memory ";
    var s5 := s4 + memory;
    var s6 := s5 + " --disk ";
    assert LaunchCmd(m, cpus, memory, disk) == s6 + disk;
    StartsWithConcat(s0, m, p);
    StartsWithConcat(s1, " --cpus ", p);
    StartsWithConcat(s2, IntToString(cpus), p);
    StartsWithConcat(s3, " --memory ", p);
    StartsWithConcat(s4, memory, p);
    StartsWithConcat(s5, " --disk ", p);
    StartsWithConcat(s6, disk, p);
    assert s6 + disk == p + (s6 + disk)[|p|..];
    MismatchConcat(p, (s6 + disk)[|p|..], "multipass stop ", 10);
    MismatchConcat(p, (s6 + disk)[|p|..], "multipass delete ", 10);
  }

  lemma MkdirCmdKind(m: string)
    ensures !IsLaunch(MkdirCmd(m)) && !IsStop(MkdirCmd(m)) && !IsDelete(MkdirCmd(m))
  {
    var p := "multipass exec ";
    var rest := WorkdirFlag(None) + " " + m + " -- " + Privileged(QuoteCommand("mkdir -p " + Workdir), false);
    assert MkdirCmd(m) == p + rest;
    MismatchConcat(p, rest, "multipass launch ", 10);
    MismatchConcat(p, rest, "multipass stop ", 10);
    MismatchConcat(p, rest, "multipass delete ", 10);
  }

  lemma StopCmdKind(m: string)
    ensures IsStop(StopCmd(m)) && !IsLaunch(StopCmd(m)) && !IsDelete(StopCmd(m))
  {
    var p := "multipass stop ";
    assert StartsWith(p, p);
    StartsWithConcat(p, m, p);
    MismatchConcat(p, m, "multipass launch ", 10);
    MismatchConcat(p, m, "multipass delete ", 10);
  }

  lemma DeleteCmdKind(m: string)
    ensures IsDelete(DeleteCmd(m)) && !IsLaunch(DeleteCmd(m)) && !IsStop(DeleteCmd(m))
  {
    var p := "multipass delete ";
    assert StartsWith(p, p);
    StartsWithConcat(p, m, p);
    MismatchConcat(p, m, "multipass launch ", 10);
    MismatchConcat(p, m, "multipass stop ", 10);
  }

  /** The launch command passes the name and the three resource values as
      separate arguments, in this order, when none of them needs quoting. */
  lemma LaunchCmdWords(m: string, cpus: int, memory: string, disk: string)
    requires IsPlainWord(m) && IsPlainWord(memory) && IsPlainWord(disk)
    ensures Words(LaunchCmd(m, cpus, memory, disk))
         == Some(["multipass", "launch", "--name", m, "--cpus", IntToString(cpus),
                  "--memory", memory, "--disk", disk])
  {
    var n := IntToString(cpus);
    var ws := ["multipass", "launch", "--name", m, "--cpus", n, "--memory", memory, "--disk"];
    IntToStringIsPlain(cpus);
    LaunchCmdSpaced(m, cpus, memory, disk);
    LaunchWordsPlain();
    SpacedWords(ws, disk, []);
    assert [] + ws == ws;
    assert disk + "" == disk && "" + disk == disk;
    PlainStretch(disk, "", ws, "");
    assert Unquoted("", ws, disk, true) == Some(ws + [disk]);
    assert ws + [disk] == ["multipass", "launch", "--name", m, "--cpus", n, "--memory", memory, "--disk", disk];
  }

  lemma LaunchWordsPlain()
    ensures IsPlainWord("multipass") && IsPlainWord("launch") && IsPlainWord("--name")
    ensures IsPlainWord("--cpus") && IsPlainWord("--memory") && IsPlainWord("--disk")
  {
    LowerWordPlain("multipass");
    LowerWordPlain("launch");
    LowerWordPlain("--name");
    LowerWordPlain("--cpus");
    LowerWordPlain("--memory");
    LowerWordPlain("--disk");
  }

  lemma LaunchCmdSpaced(m: string, cpus: int, memory: string, disk: string)
    ensures LaunchCmd(m, cpus, memory, disk)
         == Spaced(["multipass", "launch", "--name", m, "--cpus", IntToString(cpus), "--memory", memory, "--disk"]) + disk
  {
    var n := IntToString(cpus);
    assert LaunchCmd(m, cpus, memory, disk)
        == "multipass launch --name " + m + " --cpus " + n + " --memory " + memory + " --disk " + disk;
    LaunchText(m, n, memory, disk);
    LaunchWordsMerge(m, n, memory);
  }

  /** The rendering of a number needs no quoting. */
  lemma IntToStringIsPlain(n: int)
    ensures IsPlainWord(IntToString(n))
  {
    var s := IntToString(n);
    assert forall k :: 0 <= k < |s| ==> s[k] == '-' || '0' <= s[k] <= '9';
  }

  /** The launch command written as blank-separated words. */
  lemma LaunchText(m: string, n: string, memory: string, disk: string)
    ensures "multipass launch --name " + m + " --cpus " + n + " --memory " + memory + " --disk " + disk
         == Spaced(["multipass", "launch", "--name"]) + (m + " ") + Spaced(["--cpus", n])
            + Spaced(["--memory", memory]) + ("--disk" + " ") + disk
  {
    LaunchHead();
    SpacedPair("--cpus", n);
    SpacedPair("--memory", memory);
    assert " --cpus " == " " + "--cpus" + " ";
    assert " --memory " == " " + "--memory" + " ";
    assert " --disk " == " " + "--disk" + " ";
  }

  lemma LaunchHead()
    ensures Spaced(["multipass", "launch", "--name"]) == "multipass launch --name "
  {
    assert Spaced(["--name"]) == "--name ";
    assert Spaced(["launch", "--name"]) == "launch --name ";
  }

  lemma LaunchWordsMerge(m: string, n: string, memory: string)
    ensures Spaced(["multipass", "launch", "--name"]) + (m + " ") + Spaced(["--cpus", n])
            + Spaced(["--memory", memory]) + ("--disk" + " ")
         == Spaced(["multipass", "launch", "--name", m, "--cpus", n, "--memory", memory, "--disk"])
  {
    var a, b, c, d, e := ["multipass", "launch", "--name"], [m], ["--cpus", n], ["--memory", memory], ["--disk"];
    assert Spaced(b) == m + " ";
    assert Spaced(e) == "--disk" + " ";
    SpacedConcat(a, b);
    SpacedConcat(a + b, c);
    SpacedConcat(a + b + c, d);
    SpacedConcat(a + b + c + d, e);
    assert a + b + c + d + e == ["multipass", "launch", "--name", m, "--cpus", n, "--memory", memory, "--disk"];
  }
}
