/** The `Multipass` orchestrator as a stateful object: every provider command
    goes through the local shell, which is modelled as an oracle that records
    the commands it is given, in order, and answers each one with an exit
    status and the two output streams. */
module MultipassSession {
  import opened Wrappers
  import opened Errors
  import opened Text
  import opened PosixPaths
  import opened Forwarding
  import opened ConfigModels
  import opened ConfigLookup

  /** What is fed to a command's standard input. A `str` runs the process in
      text mode; `bytes` (the content of an uploaded file) in binary mode,
      where only ASCII whitespace counts for `strip`. */
  datatype Payload = Str(text: string) | Bytes(data: string)

  datatype ProcessResult = ProcessResult(returnCode: int, stdout: string, stderr: string)

  /** The answer the environment gives to the `n`-th command issued, given the
      command and its standard input (`None` when the streams are not piped). */
  type Responder = (nat, string, Option<Payload>) -> ProcessResult

  /** How `_shell_cmd` turns a finished process into a result: with piped
      streams a nonzero status raises `MultipassException` with the error
      output, and otherwise the output is returned stripped of whitespace at
      both ends; without pipes nothing is checked and `None` is returned. */
  function ShellOutcome(res: ProcessResult, pipe: bool, bytesMode: bool): Result<Option<string>, Error> {
    if !pipe then Success(None)
    else if res.returnCode != 0 then Failure(MultipassException(res.stderr))
    else Success(Some(Strip(res.stdout, bytesMode)))
  }

  /** The result raises exactly for a piped command with a nonzero status, and
      a returned output is the one slice of the process output that starts and
      ends with a non-whitespace character and has only whitespace around it. */
  lemma ShellOutcomeCases(res: ProcessResult, pipe: bool, bytesMode: bool)
    ensures var r := ShellOutcome(res, pipe, bytesMode);
      && (r.Failure? <==> pipe && res.returnCode != 0)
      && (r.Failure? ==> r.error == MultipassException(res.stderr))
      && (!pipe ==> r == Success(None))
      && (pipe && r.Success? ==>
            r.value.Some? && IsStrippedForm(res.stdout, r.value.value, c => IsSpace(c, bytesMode)))
  {
    StripIsStrippedForm(res.stdout, c => IsSpace(c, bytesMode));
  }

  /** Whether `_shell_cmd` raises for a finished process, and with what. */
  function Status(res: ProcessResult, pipe: bool): Outcome<Error> {
    if pipe && res.returnCode != 0 then Fail(MultipassException(res.stderr)) else Pass
  }

  /** `Status` is the raising part of `ShellOutcome`, whichever whitespace the
      output would be stripped of: it fails exactly when the result is an
      exception, and with the same exception. */
  lemma StatusAgrees(res: ProcessResult, pipe: bool, bytesMode: bool)
    ensures Status(res, pipe).Fail? <==> ShellOutcome(res, pipe, bytesMode).Failure?
    ensures Status(res, pipe).Fail? ==> Status(res, pipe).error == ShellOutcome(res, pipe, bytesMode).error
  {
  }

  /** Whether the `n`-th command raises; construction and teardown depend on
      nothing else of a command's answer. */
  function StepStatus(respond: Responder, n: nat, cmd: string): Outcome<Error> {
    Status(respond(n, cmd, Some(Str(""))), true)
  }

  /** The answer to the `n`-th command, as `_shell_cmd` reports it. */
  function Step(respond: Responder, n: nat, cmd: string, stdin: Payload, pipe: bool): Result<Option<string>, Error> {
    ShellOutcome(respond(n, cmd, if pipe then Some(stdin) else None), pipe, stdin.Bytes?)
  }

  /** The local shell, with the log of every command it has been given. */
  class Shell {
    var issued: seq<string>
    const respond: Responder

    constructor(respond: Responder)
      ensures issued == [] && this.respond == respond
    {
      issued := [];
      this.respond := respond;
    }

    /** `_shell_cmd(cmd, stdin, pipe)`: runs `cmd` through the shell. */
    method ShellCmd(cmd: string, stdin: Payload := Str(""), pipe: bool := true)
      returns (r: Result<Option<string>, Error>)
      modifies this
      ensures issued == old(issued) + [cmd]
      ensures r == Step(respond, |old(issued)|, cmd, stdin, pipe)
      ensures stdin == Str("") && pipe ==>
        (r.Failure? <==> StepStatus(respond, |old(issued)|, cmd).Fail?)
        && (r.Failure? ==> r.error == StepStatus(respond, |old(issued)|, cmd).error)
    {
      var res := respond(|issued|, cmd, if pipe then Some(stdin) else None);
      issued := issued + [cmd];
      if !pipe {
        return Success(None);
      }
      if res.returnCode != 0 {
        return Failure(MultipassException(res.stderr));
      }
      return Success(Some(Strip(res.stdout, stdin.Bytes?)));
    }
  }

  // ---------------------------------------------------------------------------
  // Construction

  /** The name of the VM, made from a random UUID. */
  function MachineName(uuid: string): string {
    "geniso-" + uuid
  }

  /** The commands construction issues, counting from command `start`, and its
      outcome: authenticate, look up the configuration (whose result is
      `lookup`), launch, create the workspace directory; the first failing
      step ends construction. */
  function ConstructionRun(respond: Responder, start: nat, auth: string, lookup: Result<ConfigValue, Error>,
                           machineName: string, cpus: int, memory: string, disk: string): (seq<string>, Result<ConfigValue, Error>)
  {
    var a := StepStatus(respond, start, AuthenticateCmd(auth));
    if a.Fail? then ([AuthenticateCmd(auth)], Failure(a.error))
    else if lookup.Failure? then ([AuthenticateCmd(auth)], Failure(lookup.error))
    else
      var p := PrepareRun(respond, start + 1, machineName, cpus, memory, disk);
      ([AuthenticateCmd(auth)] + p.0, if p.1.Fail? then Failure(p.1.error) else Success(lookup.value))
  }

  /** The commands of the last part of construction, once the configuration is
      known, from command `start` on: launch the VM, then create the workspace
      directory in it. */
  function PrepareRun(respond: Responder, start: nat, machineName: string, cpus: int, memory: string, disk: string)
    : (seq<string>, Outcome<Error>)
  {
    var l := StepStatus(respond, start, LaunchCmd(machineName, cpus, memory, disk));
    if l.Fail? then ([LaunchCmd(machineName, cpus, memory, disk)], l)
    else ([LaunchCmd(machineName, cpus, memory, disk), MkdirCmd(machineName)],
          StepStatus(respond, start + 1, MkdirCmd(machineName)))
  }

  /** `_authenticate(auth)`: its output is discarded. */
  method Authenticate(shell: Shell, auth: string) returns (o: Outcome<Error>)
    modifies shell
    ensures shell.issued == old(shell.issued) + [AuthenticateCmd(auth)]
    ensures o == StepStatus(shell.respond, |old(shell.issued)|, AuthenticateCmd(auth))
  {
    var r := shell.ShellCmd(AuthenticateCmd(auth));
    o := if r.Failure? then Fail(r.error) else Pass;
  }

  /** `_provision_vm(cpus, memory, disk)`: launches the VM; its output is discarded. */
  method ProvisionVm(shell: Shell, machineName: string, cpus: int, memory: string, disk: string)
    returns (o: Outcome<Error>)
    modifies shell
    ensures shell.issued == old(shell.issued) + [LaunchCmd(machineName, cpus, memory, disk)]
    ensures o == StepStatus(shell.respond, |old(shell.issued)|, LaunchCmd(machineName, cpus, memory, disk))
  {
    var r := shell.ShellCmd(LaunchCmd(machineName, cpus, memory, disk));
    o := if r.Failure? then Fail(r.error) else Pass;
  }

  /** `Multipass(config_name, auth, cpus, memory, disk, auth_keys)`. The VM is
      named after `uuid`; `rootSalt` and `userSalt` are the salts the password
      hashes of the configuration draw. An exception in any step leaves the
      commands issued so far in the shell's log and yields no object. */
  method NewMultipass(shell: Shell, uuid: string, rootSalt: nat, userSalt: nat,
                      configName: string, auth: string, cpus: int := 4, memory: string := "8G",
                      disk: string := "7G", authKeys: seq<string> := [])
    returns (r: Result<Multipass, Error>)
    modifies shell
    ensures var run := ConstructionRun(shell.respond, |old(shell.issued)|, auth, SelectConfig(configName, authKeys, authKeys, rootSalt, userSalt), MachineName(uuid), cpus, memory, disk);
      && shell.issued == old(shell.issued) + run.0
      && (r.Failure? <==> run.1.Failure?)
      && (r.Failure? ==> r.error == run.1.error)
      && (r.Success? ==> fresh(r.value) && r.value.shell == shell && r.value.machineName == MachineName(uuid)
                         && r.value.config.Value() == run.1.value && r.value.tempdir == None
                         && !r.value.tempdirOnDisk)
  {
    var a := Authenticate(shell, auth);
    if a.Fail? {
      return Failure(a.error);
    }
    var c := GetConfig(configName, authKeys, authKeys, rootSalt, userSalt);
    r := Provisioned(shell, uuid, auth, c, SelectConfig(configName, authKeys, authKeys, rootSalt, userSalt),
                     cpus, memory, disk);
  }

  /** Construction once the authentication has succeeded and the configuration
      has been looked up (as `c`, whose value or error is `lookup`): a lookup
      error is raised; otherwise the VM is named, launched and prepared. */
  method Provisioned(shell: Shell, uuid: string, ghost auth: string, c: Result<Config, Error>,
                     ghost lookup: Result<ConfigValue, Error>, cpus: int, memory: string, disk: string)
    returns (r: Result<Multipass, Error>)
    requires |shell.issued| >= 1 && shell.issued[|shell.issued| - 1] == AuthenticateCmd(auth)
    requires StepStatus(shell.respond, |shell.issued| - 1, AuthenticateCmd(auth)).Pass?
    requires c.Failure? <==> lookup.Failure?
    requires c.Failure? ==> c.error == lookup.error
    requires c.Success? ==> c.value.Value() == lookup.value
    modifies shell
    ensures var before := old(shell.issued)[..|old(shell.issued)| - 1];
            var run := ConstructionRun(shell.respond, |before|, auth, lookup, MachineName(uuid), cpus, memory, disk);
      && shell.issued == before + run.0
      && (r.Failure? <==> run.1.Failure?)
      && (r.Failure? ==> r.error == run.1.error)
      && (r.Success? ==> fresh(r.value) && r.value.shell == shell && r.value.machineName == MachineName(uuid)
                         && r.value.config.Value() == run.1.value && r.value.tempdir == None
                         && !r.value.tempdirOnDisk)
  {
    ghost var before := shell.issued[..|shell.issued| - 1];
    assert shell.issued == before + [AuthenticateCmd(auth)];
    if c.Failure? {
      return Failure(c.error);
    }
    var mp := new Multipass.Init(shell, MachineName(uuid), c.value);
    ghost var prep := PrepareRun(shell.respond, |before| + 1, MachineName(uuid), cpus, memory, disk);
    var p := mp.Prepare(cpus, memory, disk);
    assert shell.issued == before + ([AuthenticateCmd(auth)] + prep.0);
    if p.Fail? {
      return Failure(p.error);
    }
    return Success(mp);
  }

  /** Construction issues the authentication first, and at most the three
      commands authenticate, launch and mkdir, in this order. */
  lemma ConstructionAuthenticatesFirst(respond: Responder, start: nat, configName: string, auth: string,
                                       machineName: string, cpus: int, memory: string, disk: string,
                                       authKeys: seq<string>, rootSalt: nat, userSalt: nat)
    ensures var log := ConstructionRun(respond, start, auth, SelectConfig(configName, authKeys, authKeys, rootSalt, userSalt), machineName, cpus, memory, disk).0;
      && 1 <= |log| <= 3 && log[0] == AuthenticateCmd(auth)
      && log <= [AuthenticateCmd(auth), LaunchCmd(machineName, cpus, memory, disk), MkdirCmd(machineName)]
  {
    var full := [AuthenticateCmd(auth), LaunchCmd(machineName, cpus, memory, disk), MkdirCmd(machineName)];
    var log := ConstructionRun(respond, start, auth, SelectConfig(configName, authKeys, authKeys, rootSalt, userSalt), machineName, cpus, memory, disk).0;
    assert log == full[..1] || log == full[..2] || log == full;
  }

  /** A target name without a working configuration (an unknown one, or `nuc`
      as written) fails after authentication and before any VM is launched. */
  lemma ConstructionNeverLaunchesWithoutConfig(respond: Responder, start: nat, configName: string, auth: string,
                                               machineName: string, cpus: int, memory: string, disk: string,
                                               authKeys: seq<string>, rootSalt: nat, userSalt: nat)
    requires configName != "thinkpad"
    ensures var run := ConstructionRun(respond, start, auth, SelectConfig(configName, authKeys, authKeys, rootSalt, userSalt), machineName, cpus, memory, disk);
      && run.0 == [AuthenticateCmd(auth)]
      && (forall i :: 0 <= i < |run.0| ==> !IsLaunch(run.0[i]))
      && run.1.Failure?
      && (StepStatus(respond, start, AuthenticateCmd(auth)).Pass? ==>
            run.1.error == SelectConfig(configName, authKeys, authKeys, rootSalt, userSalt).error)
  {
    SelectConfigOutcome(configName, authKeys, authKeys, rootSalt, userSalt);
    AuthenticateCmdKind(auth);
  }

  /** Construction succeeds exactly when all three commands report success and
      the target is `thinkpad`; then it has issued exactly those three, and the
      configuration is the ThinkPad one with `authKeys` for both users. */
  lemma ConstructionSuccess(respond: Responder, start: nat, configName: string, auth: string,
                            machineName: string, cpus: int, memory: string, disk: string,
                            authKeys: seq<string>, rootSalt: nat, userSalt: nat)
    ensures var run := ConstructionRun(respond, start, auth, SelectConfig(configName, authKeys, authKeys, rootSalt, userSalt), machineName, cpus, memory, disk);
      && (run.1.Success? <==>
            && configName == "thinkpad"
            && StepStatus(respond, start, AuthenticateCmd(auth)).Pass?
            && StepStatus(respond, start + 1, LaunchCmd(machineName, cpus, memory, disk)).Pass?
            && StepStatus(respond, start + 2, MkdirCmd(machineName)).Pass?)
      && (run.1.Success? ==>
            && run.0 == [AuthenticateCmd(auth), LaunchCmd(machineName, cpus, memory, disk), MkdirCmd(machineName)]
            && run.1.value == ThinkpadConfig.ThinkpadValue(authKeys, authKeys, rootSalt, userSalt))
  {
    SelectConfigOutcome(configName, authKeys, authKeys, rootSalt, userSalt);
  }

  /** When the workspace directory cannot be created the VM has been launched
      but construction raises, so no object exists whose teardown could stop
      or delete it: the log holds a launch and no stop or delete. This holds
      whatever configuration was found. */
  lemma ConstructionLeaksVmOnMkdirFailure(respond: Responder, start: nat, auth: string,
                                          lookup: Result<ConfigValue, Error>,
                                          machineName: string, cpus: int, memory: string, disk: string)
    requires lookup.Success?
    requires StepStatus(respond, start, AuthenticateCmd(auth)).Pass?
    requires StepStatus(respond, start + 1, LaunchCmd(machineName, cpus, memory, disk)).Pass?
    requires StepStatus(respond, start + 2, MkdirCmd(machineName)).Fail?
    ensures var run := ConstructionRun(respond, start, auth, lookup, machineName, cpus, memory, disk);
      && run.1.Failure?
      && (exists i :: 0 <= i < |run.0| && IsLaunch(run.0[i]))
      && (forall i :: 0 <= i < |run.0| ==> !IsDelete(run.0[i]) && !IsStop(run.0[i]))
  {
    var a := AuthenticateCmd(auth);
    var l := LaunchCmd(machineName, cpus, memory, disk);
    var m := MkdirCmd(machineName);
    assert PrepareRun(respond, start + 1, machineName, cpus, memory, disk).0 == [l, m];
    assert ConstructionRun(respond, start, auth, lookup, machineName, cpus, memory, disk).0 == [a, l, m];
    AuthenticateCmdKind(auth);
    LaunchCmdKind(machineName, cpus, memory, disk);
    MkdirCmdKind(machineName);
    LaunchWithoutTeardown(a, l, m);
  }

  /** A three-command log whose middle command is a launch and none of whose
      commands stops or deletes a VM. */
  lemma LaunchWithoutTeardown(a: string, l: string, m: string)
    requires IsLaunch(l)
    requires !IsStop(a) && !IsStop(l) && !IsStop(m) && !IsDelete(a) && !IsDelete(l) && !IsDelete(m)
    ensures (exists i :: 0 <= i < |[a, l, m]| && IsLaunch([a, l, m][i]))
    ensures forall i :: 0 <= i < |[a, l, m]| ==> !IsDelete([a, l, m][i]) && !IsStop([a, l, m][i])
  {
    assert [a, l, m][1] == l;
  }

  // ---------------------------------------------------------------------------
  // Teardown

  /** The commands `_destroy_vm` issues from command `start` on, and its
      outcome: stop, then delete; a failing stop raises before the delete. */
  function TeardownRun(respond: Responder, start: nat, machineName: string): (seq<string>, Outcome<Error>) {
    var s := StepStatus(respond, start, StopCmd(machineName));
    if s.Fail? then ([StopCmd(machineName)], Fail(s.error))
    else
      var d := StepStatus(respond, start + 1, DeleteCmd(machineName));
      if d.Fail? then ([StopCmd(machineName), DeleteCmd(machineName)], Fail(d.error))
      else ([StopCmd(machineName), DeleteCmd(machineName)], Pass)
  }

  /** Teardown stops before it deletes, deletes only a VM that stopped, and
      succeeds exactly when both commands do. */
  lemma TeardownOrder(respond: Responder, start: nat, machineName: string)
    ensures var run := TeardownRun(respond, start, machineName);
      && 1 <= |run.0| <= 2 && IsStop(run.0[0]) && run.0[0] == StopCmd(machineName)
      && (|run.0| == 2 <==> StepStatus(respond, start, StopCmd(machineName)).Pass?)
      && (|run.0| == 2 ==> IsDelete(run.0[1]) && run.0[1] == DeleteCmd(machineName))
      && (run.1.Pass? <==>
            StepStatus(respond, start, StopCmd(machineName)).Pass?
            && StepStatus(respond, start + 1, DeleteCmd(machineName)).Pass?)
      && (forall i :: 0 <= i < |run.0| ==> !IsLaunch(run.0[i]))
  {
    StopCmdKind(machineName);
    DeleteCmdKind(machineName);
  }

  /** The scratch directory the cached `_tempdir` yields: the one already
      created, or the new one `mkdtemp` would create. */
  function CachedTempdir(tempdir: Option<string>, mkdtemp: string): string {
    if tempdir.Some? then tempdir.value else mkdtemp
  }

  // ---------------------------------------------------------------------------
  // The orchestrator object

  class Multipass {
    const shell: Shell
    const machineName: string
    /** The target configuration, set once by `__init__`. */
    const config: Config
    /** The cached scratch directory, `None` until first used. */
    var tempdir: Option<string>
    /** Whether the scratch directory exists on the local disk. */
    var tempdirOnDisk: bool

    /** The object as it stands when `__init__` has finished. */
    constructor Init(shell: Shell, machineName: string, config: Config)
      ensures this.shell == shell && this.machineName == machineName && this.config == config
      ensures tempdir == None && !tempdirOnDisk
    {
      this.shell := shell;
      this.machineName := machineName;
      this.config := config;
      tempdir := None;
      tempdirOnDisk := false;
    }

    /** The end of `__init__`: `_provision_vm`, then the workspace directory
        is created through `cmd`, unprivileged and with no working directory. */
    method Prepare(cpus: int, memory: string, disk: string) returns (o: Outcome<Error>)
      modifies shell
      ensures var run := PrepareRun(shell.respond, |old(shell.issued)|, machineName, cpus, memory, disk);
        shell.issued == old(shell.issued) + run.0 && o == run.1
    {
      o := ProvisionVm(shell, machineName, cpus, memory, disk);
      if o.Fail? {
        return;
      }
      var m := Cmd("mkdir -p " + Workdir, become := false, cwd := None);
      o := if m.Failure? then Fail(m.error) else Pass;
    }

    /** The cached `_tempdir`: the first use creates the directory, with the
        name `mkdtemp` returns; later uses return it unchanged. */
    method TempDir(mkdtemp: string) returns (d: string)
      modifies this
      ensures d == CachedTempdir(old(tempdir), mkdtemp) && tempdir == Some(d)
      ensures tempdirOnDisk == (old(tempdir).None? || old(tempdirOnDisk))
    {
      if tempdir.None? {
        tempdir := Some(mkdtemp);
        tempdirOnDisk := true;
      }
      d := tempdir.value;
    }

    /** `__enter__`: makes sure the scratch directory exists. */
    method Enter(mkdtemp: string)
      modifies this
      ensures tempdir == Some(CachedTempdir(old(tempdir), mkdtemp))
      ensures tempdirOnDisk == (old(tempdir).None? || old(tempdirOnDisk))
    {
      var _ := TempDir(mkdtemp);
    }

    /** `cmd(command, become, cwd, stdin, pipe)`: runs a command in the VM. */
    method Cmd(command: string, become: bool := true, cwd: Option<string> := Some(Workdir),
               stdin: string := "", pipe: bool := true)
      returns (r: Result<Option<string>, Error>)
      modifies shell
      ensures shell.issued == old(shell.issued) + [BuildForwardedCmd(machineName, command, become, cwd)]
      ensures r == Step(shell.respond, |old(shell.issued)|, BuildForwardedCmd(machineName, command, become, cwd),
                        Str(stdin), pipe)
      ensures stdin == "" && pipe ==>
        var status := StepStatus(shell.respond, |old(shell.issued)|, BuildForwardedCmd(machineName, command, become, cwd));
        (r.Failure? <==> status.Fail?) && (r.Failure? ==> r.error == status.error)
    {
      r := shell.ShellCmd(BuildForwardedCmd(machineName, command, become, cwd), Str(stdin), pipe);
    }

    /** `_transfer(src, dest)`: `content` is what reading the local file in
        binary mode yields; it is fed to the transfer, so the process runs in
        binary mode. */
    method Transfer(content: string, dest: string) returns (r: Result<Option<string>, Error>)
      modifies shell
      ensures shell.issued == old(shell.issued) + ["multipass transfer - " + dest]
      ensures r == Step(shell.respond, |old(shell.issued)|, "multipass transfer - " + dest, Bytes(content), true)
    {
      r := shell.ShellCmd("multipass transfer - " + dest, Bytes(content));
    }

    /** `upload(src, dest, destdir)`; `content` is the content of the local
        file `src`. */
    method Upload(src: string, content: string, dest: string := ".", destdir: bool := true)
      returns (r: Result<Option<string>, Error>)
      modifies shell
      ensures shell.issued == old(shell.issued) + [UploadCmd(machineName, src, dest, destdir)]
      ensures r == Step(shell.respond, |old(shell.issued)|, UploadCmd(machineName, src, dest, destdir),
                        Bytes(content), true)
    {
      var target := machineName + ":" + UploadPath(src, dest, destdir);
      assert "multipass transfer - " + target == UploadCmd(machineName, src, dest, destdir);
      r := Transfer(content, target);
    }

    /** `download(src, dest)`; `absDest` is the absolute form of `dest`, which
        the local directory creation makes sure exists. */
    method Download(src: string, absDest: string) returns (r: Result<Option<string>, Error>)
      modifies shell
      ensures shell.issued == old(shell.issued) + [DownloadCmd(machineName, src, absDest)]
      ensures r == Step(shell.respond, |old(shell.issued)|, DownloadCmd(machineName, src, absDest), Str(""), true)
    {
      var remote := if StartsWith(src, "/") then src else Workdir + "/" + src;
      var cmd := "sudo multipass transfer " + machineName + ":" + remote + " " + absDest;
      assert cmd == DownloadCmd(machineName, src, absDest);
      r := shell.ShellCmd(cmd);
    }

    /** `upload_rendered_template(template_name, dest_fname)`: the rendered
        text (`rendered`) is written under the file name into the scratch
        directory, and that file is uploaded with the default destination. */
    method UploadRenderedTemplate(templateName: string, destFname: Option<string>, rendered: string, mkdtemp: string)
      returns (r: Result<Option<string>, Error>)
      modifies this, shell
      ensures var fname := if destFname.Some? then destFname.value else DefaultRenderedName(templateName);
              var local := OsPathJoin(CachedTempdir(old(tempdir), mkdtemp), fname);
        && shell.issued == old(shell.issued) + [UploadCmd(machineName, local, ".", true)]
        && r == Step(shell.respond, |old(shell.issued)|, UploadCmd(machineName, local, ".", true), Bytes(rendered), true)
      ensures tempdir == Some(CachedTempdir(old(tempdir), mkdtemp))
      ensures tempdirOnDisk == (old(tempdir).None? || old(tempdirOnDisk))
    {
      var fname := if destFname.Some? then destFname.value else DefaultRenderedName(templateName);
      var d := TempDir(mkdtemp);
      var local := OsPathJoin(d, fname);
      r := Upload(local, rendered);
    }

    /** `_destroy_vm`: stop, then delete. */
    method DestroyVm() returns (r: Outcome<Error>)
      modifies shell
      ensures shell.issued == old(shell.issued) + TeardownRun(shell.respond, |old(shell.issued)|, machineName).0
      ensures r == TeardownRun(shell.respond, |old(shell.issued)|, machineName).1
    {
      ghost var before := shell.issued;
      ghost var run := TeardownRun(shell.respond, |before|, machineName);
      var s := shell.ShellCmd(StopCmd(machineName));
      if s.Failure? {
        assert run.0 == [StopCmd(machineName)];
        return Fail(s.error);
      }
      var d := shell.ShellCmd(DeleteCmd(machineName));
      assert run.0 == [StopCmd(machineName), DeleteCmd(machineName)];
      assert shell.issued == before + run.0;
      if d.Failure? {
        return Fail(d.error);
      }
      return Pass;
    }

    /** `__exit__`: the scratch directory is looked up through the cache (so
        it is created if it was never used), removed, and the VM destroyed. */
    method Exit(mkdtemp: string) returns (r: Outcome<Error>)
      modifies this, shell
      ensures tempdir == Some(CachedTempdir(old(tempdir), mkdtemp)) && !tempdirOnDisk
      ensures shell.issued == old(shell.issued) + TeardownRun(shell.respond, |old(shell.issued)|, machineName).0
      ensures r == TeardownRun(shell.respond, |old(shell.issued)|, machineName).1
    {
      var d := TempDir(mkdtemp);
      if tempdirOnDisk {
        tempdirOnDisk := false;
      }
      r := DestroyVm();
    }
  }
}
