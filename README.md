# imgbuilder: the Multipass orchestrator and the target configurations, in Dafny

imgbuilder builds installer images inside a throw-away Multipass VM. This
project models two parts of it.

The first is the `Multipass` orchestrator (`src/utils/multipass.py`). Every
provider action is one command line given to the local shell. The model covers:

- how each command line is built: forwarding into the VM with
  `multipass exec`, pipe quoting, `sudo`, and the working directory;
- the remote paths `upload` and `download` compute;
- the default name of a rendered template;
- the order of commands that construction and teardown issue.

The shell is an object (`MultipassSession.Shell`) that records every command
line it is given. It answers through an oracle, `respond`, which takes the
command's position, its text and its standard input, and returns an exit
status, standard output and standard error. `_shell_cmd`'s mapping of that
answer to a result or a `MultipassException` is modelled exactly, including
Python's `str.strip` and `bytes.strip`.

Construction is `MultipassSession.NewMultipass`. It returns the new object, or
the error `__init__` raises. The commands it issues stay in the shell's log
either way, so the log shows, for example, that a VM launched before a failing
`mkdir` is never deleted. Construction and teardown are specified by the pure
functions `ConstructionRun` and `TeardownRun`. They give the commands issued
and the outcome, as a function of the oracle's answers.

To state what the command lines mean, two further models are used:

- `PosixPaths` models `pathlib.PurePosixPath` parsing, joining and printing,
  and `os.path.join`.
- `ShellWords` models how the local shell splits a command line into the
  arguments of one simple command: blanks, single quotes and backslashes.
  Lines with an unquoted operator, expansion, glob or comment are marked as
  not one simple command, without modelling what the shell then runs.

The second part is the configuration tree: `src/utils/models/config.py`,
`src/utils/config.py`, `src/utils/configs/thinkpad.py` and
`src/utils/configs/nuc.py`.

- `User` and `Config` are classes whose fields the constructors and
  `set_password` assign in place. Their `Value()` is the record `asdict`
  exposes.
- The other records are value datatypes with their defaults.
- `md5_crypt.hash` is a symbolic `CryptHash(password, salt)`. Its random salt
  is an input, so the model can state that the hash is recomputed from the
  current password.
- `get_config` dispatches by name.
- The ThinkPad and NUC constructors overwrite a few fields after the base
  constructor. The NUC constructor, as written, fails in its base call (see
  Findings), and the model keeps that failure.

Where the behaviour described for the program and its code differ, the model
follows the code:

- A failing `multipass stop` raises, and `multipass delete` is then never
  issued. Teardown is not best-effort.
- Command output is stripped at both ends, not only trailing newlines.
- Because the salt is random, equal passwords need not give equal hashes.
- `__exit__` reaches the scratch directory through the cached `_tempdir`, so
  it creates the directory if it was never used, then removes it.
- If creating the workspace directory fails after the launch, construction
  raises with the VM still running.

## Model

| member | source | states |
|---|---|---|
| Text.IsSpace | src/utils/multipass.py:103-121 | the characters `strip()` removes: those for which `str.isspace()` holds in text mode, the six ASCII whitespace bytes in bytes mode; the set is fixed by its definition, and the strip lemmas below are stated over it |
| Text.Strip | src/utils/multipass.py:121 | `stdout.strip()`: leading then trailing whitespace removed; characterised by `Text.StripIsStrippedForm` and `Text.StrippedFormUnique` |
| Text.RemoveSuffix | src/utils/multipass.py:177 | `str.removesuffix`: when `s` ends with the suffix the result followed by the suffix is `s`; otherwise `s` is unchanged |
| Text.StripStartFacts | src/utils/multipass.py:121 | leading-whitespace removal keeps a suffix of the input that does not start with whitespace, and drops only whitespace |
| Text.StripEndFacts | src/utils/multipass.py:121 | trailing-whitespace removal keeps a prefix that does not end with whitespace, and drops only whitespace |
| Text.StripIsStrippedForm | src/utils/multipass.py:121 | `strip()` returns a slice of the output that starts and ends with non-whitespace and has only whitespace around it |
| Text.StrippedFormUnique | src/utils/multipass.py:121 | any slice with that property is the result of `strip()`, so the property defines stripping |
| Text.StripIdempotent | src/utils/multipass.py:121 | stripping an already stripped output changes nothing |
| Text.NatToString | src/utils/multipass.py:62 | the decimal text of a count is all digits, with no leading zero except for 0 |
| Text.IntToString | src/utils/multipass.py:62 | how an f-string prints the `cpus` int, minus sign included; its meaning is `Text.ParseNatToString` and `Text.IntToStringInjective` |
| Text.ParseNatToString | src/utils/multipass.py:62 | reading back the decimal text of `--cpus` gives the number |
| Text.IntToStringInjective | src/utils/multipass.py:62 | different CPU counts give different `--cpus` arguments |
| PosixPaths.Parse | src/utils/multipass.py:152 | `pathlib.Path(s)` on POSIX: the root (`""`, `/` or `//`) and the components without empty and `.` pieces; its form is `PosixPaths.ParseNormal` and `PosixPaths.ParsePartsIgnoreRoot` |
| PosixPaths.Format | src/utils/multipass.py:160 | `as_posix()`: the root followed by the parts joined with `/`; it inverts `Parse` on normal paths (`PosixPaths.ParseFormat`) |
| PosixPaths.JoinPath | src/utils/multipass.py:154-157 | `joinpath`: an absolute right side replaces the left, a relative one appends its parts; used by `Forwarding.UploadTarget` |
| PosixPaths.Name | src/utils/multipass.py:157 | `.name`: the last part, or empty; `Forwarding.NameIsComponent` states what it can be |
| PosixPaths.OsPathJoin | src/utils/multipass.py:179 | `os.path.join(a, b)` for two arguments; its components are `PosixPaths.OsPathJoinComponents` |
| PosixPaths.SplitOnConcat | src/utils/multipass.py:152-157 | splitting at slashes distributes over a slash-joined string |
| PosixPaths.SplitOnJoinWith | src/utils/multipass.py:152-157 | splitting slash-joined slash-free parts gives the parts back |
| PosixPaths.DropEmptyConcat | src/utils/multipass.py:152-157 | dropping empty and `.` pieces distributes over concatenation |
| PosixPaths.DropEmptyKeeps | src/utils/multipass.py:152-157 | pieces that are proper components are all kept |
| PosixPaths.ComponentsAreComponents | src/utils/multipass.py:152-157 | every component pathlib reads is non-empty, not `.`, and has no slash |
| PosixPaths.ComponentsConcat | src/utils/multipass.py:152-157 | the components of `a/b` are those of `a` followed by those of `b` |
| PosixPaths.ComponentsJoinWith | src/utils/multipass.py:152-160 | the components of the printed parts are the parts |
| PosixPaths.ParsePartsIgnoreRoot | src/utils/multipass.py:152-157 | the parts of a parsed path do not depend on its root |
| PosixPaths.ParseNormal | src/utils/multipass.py:152 | a parsed path has a valid root and only proper components |
| PosixPaths.ParseFormat | src/utils/multipass.py:160 | printing a normal path and parsing it back gives the same path |
| PosixPaths.ParseFormatParse | src/utils/multipass.py:152-160 | parse, print, parse equals parse |
| PosixPaths.ParseRooted | src/utils/multipass.py:152-153 | a string with a root and a slash-free start parses to that root and its components |
| PosixPaths.OsPathJoinComponents | src/utils/multipass.py:179 | `os.path.join(a, b)` with relative `b` has the components of `a` then those of `b` |
| ShellWords.Words | src/utils/multipass.py:114 | the arguments `sh -c` gives one simple command of literal words, or `None` for an unquoted operator, expansion, glob, comment, or an open quote |
| ShellWords.SpecialAfterScanned | src/utils/multipass.py:114 | an unquoted operator or expansion after any stretch that scans to completion (quotes closed) and does not end in a backslash makes the line not one simple command |
| Forwarding.QuoteCommand | src/utils/multipass.py:84-87 | a command containing `\|` is wrapped in single quotes as it stands, any other is left alone; what the shell makes of the result is `Forwarding.QuotedPipeIsOneWord`, `Forwarding.EmbeddedQuoteSplitsCommand` and `Forwarding.UnquotedOperatorNotForwarded` |
| Forwarding.ResolveCwd | src/utils/multipass.py:92-97 | a directory not starting with `/` is appended to the workspace after a slash; an absolute one is kept; its meaning is `Forwarding.ResolveCwdJoins` |
| Forwarding.BuildForwardedCmd | src/utils/multipass.py:78-99 | the line `multipass exec <flag> <machine> -- [sudo ]<quoted command>`, defaults privileged in the workspace; the arguments it gives are `Forwarding.ForwardedInvocationWords` |
| Forwarding.ForwardedInvocationWords | src/utils/multipass.py:78-99 | the shell hands `multipass` exactly `exec`, the optional `--working-directory <dir>`, the machine, `--`, an optional `sudo`, then the words of the quoted command; the extra blank when there is no flag changes nothing |
| Forwarding.PrivilegedWords | src/utils/multipass.py:89-90 | `become` adds exactly one leading word `sudo` in front of the quoted command's words |
| Forwarding.QuotedPipeIsOneWord | src/utils/multipass.py:84-87 | a command with `\|` and no single quote reaches the VM as one argument, unchanged |
| Forwarding.EmbeddedQuoteSplitsCommand | src/utils/multipass.py:84-87 | as written, `a \| b 'c d'` is split into two arguments and loses its quotes |
| Forwarding.EscapeQuotes | src/utils/multipass.py:84-87 | each single quote written as `'\''` (close, escaped quote, reopen); `Forwarding.EscapeQuotesNoQuote` and `Forwarding.EscapedPipeIsOneWord` state it |
| Forwarding.QuoteCommandEscaped | src/utils/multipass.py:84-87 | the corrected quoting of a piped command, with `EscapeQuotes` inside the quotes; `Forwarding.EscapedPipeIsOneWord` and `Forwarding.EscapedAgreesWithoutQuotes` state it |
| Forwarding.EscapedPipeIsOneWord | src/utils/multipass.py:84-87 | with embedded quotes escaped, every command with `\|` reaches the VM as exactly one argument |
| Forwarding.EscapeQuotesNoQuote | src/utils/multipass.py:84-87 | escaping leaves a command without single quotes unchanged |
| Forwarding.EscapedAgreesWithoutQuotes | src/utils/multipass.py:84-87 | the corrected quoting agrees with the original on every command without single quotes |
| Forwarding.UnquotedOperatorNotForwarded | src/utils/multipass.py:84-87 | a command with another operator (`&&`, `;`, `>`) and no pipe is passed unquoted, so the line is not one `multipass exec` call of literal words, whenever the text before the operator splits into words on its own and does not end in a backslash (so `cd 'a b' && make` is covered) |
| Forwarding.PipedSudoScenario | src/utils/multipass.py:84-99 | `foo \| bar` with `sudo` and no directory is `multipass exec  <m> -- sudo 'foo \| bar'` |
| Forwarding.ResolveCwdJoins | src/utils/multipass.py:92-97 | a relative directory resolves to the workspace joined with it, an absolute one stays, the result is absolute, and resolving twice changes nothing |
| Forwarding.WorkdirIsParsed | src/utils/multipass.py:20 | the workspace directory parses to root `/` and parts `home`, `ubuntu`, `workspace` |
| Forwarding.WorkspaceRelative | src/utils/multipass.py:164-165 | `workdir + "/" + rel` parses to the workspace parts followed by the components of `rel` |
| Forwarding.RelativeIffNoSlash | src/utils/multipass.py:152-153 | pathlib's `is_absolute` holds exactly for strings starting with `/` |
| Forwarding.NameIsComponent | src/utils/multipass.py:157 | `Path(src).name` is empty or one proper component |
| Forwarding.UploadTarget | src/utils/multipass.py:151-158 | the pathlib path `upload` writes to; stated by `Forwarding.UploadTargetParts` and `Forwarding.UploadTargetNormal` |
| Forwarding.UploadPath | src/utils/multipass.py:160 | that path printed with `as_posix()`; stated by `Forwarding.UploadPathResolves` |
| Forwarding.UploadCmd | src/utils/multipass.py:137-160 | the transfer line `multipass transfer - <machine>:<path>` of an upload; `MultipassSession.Multipass.Upload` issues exactly it |
| Forwarding.DownloadSource | src/utils/multipass.py:163-164 | the remote path of `download`: a string concatenation under the workspace unless it starts with `/`; `Forwarding.UploadDownloadSameFile` relates it to uploads |
| Forwarding.DownloadCmd | src/utils/multipass.py:162-171 | the line `sudo multipass transfer <machine>:<src> <abs dest>`; `MultipassSession.Multipass.Download` issues exactly it |
| Forwarding.UploadTargetParts | src/utils/multipass.py:151-160 | the upload target is the workspace parts (for a relative `dest`), then the components of `dest`, then the base name of `src` when `destdir` |
| Forwarding.UploadTargetNormal | src/utils/multipass.py:151-160 | the upload target is always an absolute, normal path |
| Forwarding.UploadPathResolves | src/utils/multipass.py:160 | the printed target starts with `/`, parses back to the target, and prints stably |
| Forwarding.UploadDefaultDest | src/utils/multipass.py:151-160 | with the default `dest="."` the target is `/home/ubuntu/workspace/<basename of src>` |
| Forwarding.UploadDownloadSameFile | src/utils/multipass.py:151-171 | a path given to `download` and as `upload`'s destination without `destdir` names the same remote file |
| Forwarding.DefaultRenderedName | src/utils/multipass.py:176-177 | `removesuffix(".j2").removesuffix(".jinja2")`: a prefix of the template name; unchanged without either suffix; minus `.j2` when that alone ends it; minus `.jinja2` when that alone ends it; minus both when it ends in `.jinja2.j2` |
| Forwarding.DefaultRenderedNameBothSuffixes | src/utils/multipass.py:177 | `x.jinja2.j2` loses both suffixes |
| Forwarding.DefaultRenderedNameOrder | src/utils/multipass.py:177 | `x.j2.jinja2` loses only `.jinja2`, since `.j2` is removed first |
| Forwarding.RenderedTemplateTarget | src/utils/multipass.py:179-185 | the rendered file keeps its name and is uploaded to `/home/ubuntu/workspace/<name>` |
| Forwarding.AuthenticateCmd | src/utils/multipass.py:74-76 | `sudo multipass authenticate <auth>` |
| Forwarding.LaunchCmd | src/utils/multipass.py:61-63 | `multipass launch --name <m> --cpus <n> --memory <mem> --disk <disk>`; its arguments are `Forwarding.LaunchCmdWords` |
| Forwarding.MkdirCmd | src/utils/multipass.py:41 | the forwarded `mkdir -p /home/ubuntu/workspace`, unprivileged and without a working directory |
| Forwarding.StopCmd | src/utils/multipass.py:67 | `multipass stop <m>` |
| Forwarding.DeleteCmd | src/utils/multipass.py:68 | `multipass delete <m>` |
| Forwarding.AuthenticateCmdKind | src/utils/multipass.py:74-76 | the authentication command is no launch, stop or delete |
| Forwarding.LaunchCmdKind | src/utils/multipass.py:61-63 | the launch command is a launch, and no stop or delete |
| Forwarding.MkdirCmdKind | src/utils/multipass.py:41 | the workspace creation is no launch, stop or delete |
| Forwarding.StopCmdKind | src/utils/multipass.py:67 | the stop command is a stop, and no launch or delete |
| Forwarding.DeleteCmdKind | src/utils/multipass.py:68 | the delete command is a delete, and no launch or stop |
| Forwarding.LaunchCmdWords | src/utils/multipass.py:61-63 | the launch reaches `multipass` as `launch --name <m> --cpus <n> --memory <mem> --disk <disk>` |
| MultipassSession.ShellOutcome | src/utils/multipass.py:116-123 | the result of `_shell_cmd` for a given answer; its three cases are `MultipassSession.ShellOutcomeCases` |
| MultipassSession.Status | src/utils/multipass.py:116-119 | whether `_shell_cmd` raises, and with what; its agreement with `ShellOutcome` is `MultipassSession.StatusAgrees` |
| MultipassSession.StatusAgrees | src/utils/multipass.py:116-121 | `Status` fails exactly when `ShellOutcome` raises, in either whitespace mode, and with the same `MultipassException(stderr)` |
| MultipassSession.StepStatus | src/utils/multipass.py:102-119 | whether the `n`-th command, piped with empty text input, raises; the only part of an answer construction and teardown depend on, tied to `Shell.ShellCmd` by its last ensures |
| MultipassSession.Step | src/utils/multipass.py:102-123 | the result of the `n`-th command, given the oracle; `MultipassSession.Shell.ShellCmd` returns it |
| MultipassSession.ShellOutcomeCases | src/utils/multipass.py:116-123 | with pipes, a nonzero status raises `MultipassException(stderr)` and otherwise the output is the stripped standard output; without pipes nothing is checked or returned |
| MultipassSession.Shell.ShellCmd | src/utils/multipass.py:102-123 | the command is appended to the log, and the result is the oracle's answer mapped as above; `bytes` input switches to ASCII whitespace |
| MultipassSession.Authenticate | src/utils/multipass.py:70-76 | issues `sudo multipass authenticate <auth>` and raises exactly when it fails |
| MultipassSession.ProvisionVm | src/utils/multipass.py:55-63 | issues the launch command and raises exactly when it fails |
| MultipassSession.MachineName | src/utils/multipass.py:39 | the VM name `geniso-<uuid>`; `NewMultipass` ensures the new object carries it |
| MultipassSession.NewMultipass | src/utils/multipass.py:27-41 | the log grows by exactly the construction commands, and the result is the object (named `geniso-<uuid>`, holding the looked-up configuration, no scratch directory) or the first error |
| MultipassSession.Provisioned | src/utils/multipass.py:38-41 | after authentication, a lookup error is raised before any launch; otherwise the object is built, launched and prepared |
| MultipassSession.ConstructionRun | src/utils/multipass.py:36-41 | the commands `__init__` issues and what it returns or raises, as a function of the answers: authenticate, look up, launch, mkdir, stopping at the first error; stated by the four lemmas below |
| MultipassSession.PrepareRun | src/utils/multipass.py:40-41 | launch, then the workspace `mkdir` if the launch succeeded |
| MultipassSession.ConstructionAuthenticatesFirst | src/utils/multipass.py:36-41 | authentication is always first, and the log is a prefix of authenticate, launch, mkdir |
| MultipassSession.ConstructionNeverLaunchesWithoutConfig | src/utils/multipass.py:36-40 | an unknown target (or `nuc` as written) raises after authentication and before any launch |
| MultipassSession.ConstructionSuccess | src/utils/multipass.py:36-41 | construction succeeds exactly for `thinkpad` when all three commands succeed; it then issued exactly those three and holds the ThinkPad configuration with the keys for both users |
| MultipassSession.ConstructionLeaksVmOnMkdirFailure | src/utils/multipass.py:39-41 | when `mkdir` fails the VM has been launched, construction raises, and no stop or delete was issued |
| MultipassSession.TeardownRun | src/utils/multipass.py:65-68 | the commands `_destroy_vm` issues and its outcome: stop, then delete only if stop succeeded; stated by `MultipassSession.TeardownOrder` |
| MultipassSession.TeardownOrder | src/utils/multipass.py:65-68 | stop comes first, delete is issued exactly when the stop succeeded, and teardown succeeds exactly when both do |
| MultipassSession.CachedTempdir | src/utils/multipass.py:146-149 | the `cached_property`: the directory already cached, or the one `mkdtemp` makes now; `Multipass.TempDir`, `UploadRenderedTemplate` and `Exit` use it in their ensures |
| MultipassSession.Multipass.Init | src/utils/multipass.py:38-39 | the object holds the shell, the machine name and the configuration, with no scratch directory yet |
| MultipassSession.Multipass.Prepare | src/utils/multipass.py:40-41 | the launch, then (if it succeeded) the unprivileged `mkdir -p /home/ubuntu/workspace` without a working directory |
| MultipassSession.Multipass.TempDir | src/utils/multipass.py:146-149 | the first use creates the directory and caches its name; later uses return the cached name |
| MultipassSession.Multipass.Enter | src/utils/multipass.py:43-46 | entering makes sure the scratch directory exists |
| MultipassSession.Multipass.Cmd | src/utils/multipass.py:126-135 | issues exactly the forwarded command for this VM, with text input, and returns the mapped answer |
| MultipassSession.Multipass.Transfer | src/utils/multipass.py:137-139 | issues `multipass transfer - <dest>` with the file's bytes as input |
| MultipassSession.Multipass.Upload | src/utils/multipass.py:151-160 | issues the transfer to `<machine>:<resolved path>` |
| MultipassSession.Multipass.Download | src/utils/multipass.py:162-171 | issues `sudo multipass transfer <machine>:<src under the workspace> <abs dest>` |
| MultipassSession.Multipass.UploadRenderedTemplate | src/utils/multipass.py:173-185 | uploads the file named by `dest_fname` or the default name, inside the cached scratch directory, with the rendered text as content |
| MultipassSession.Multipass.DestroyVm | src/utils/multipass.py:65-68 | the log grows by exactly the teardown commands, and the outcome is teardown's |
| MultipassSession.Multipass.Exit | src/utils/multipass.py:48-53 | the scratch directory ends up removed (created first if never used), then the VM is destroyed |
| ConfigModels.DefaultPackagesDistinct | src/utils/models/config.py:66-100 | the package list has 19 entries, from `openssh-server` to `virt-manager`, with no duplicates |
| ConfigModels.User.constructor | src/utils/models/config.py:5-17 | a new user has the given (or default `debian`/`debian`, libvirt, no keys) fields and a hash of its password |
| ConfigModels.User.UpdatePasswordHash | src/utils/models/config.py:16-17 | the hash is recomputed from the current password and nothing else changes |
| ConfigModels.User.SetPassword | src/utils/models/config.py:19-21 | the password is replaced and the hash recomputed; name, libvirt flag and keys are unchanged |
| ConfigModels.WithPassword | src/utils/models/config.py:19-21 | the password change as a value: new password, current hash, other fields kept |
| ConfigModels.NewPasswordOnly | src/utils/models/config.py:19-21 | after a change the hash verifies the new password and not the old one |
| ConfigModels.UserValues | src/utils/models/config.py:140-141 | the users' records, one per user, in order |
| ConfigModels.BaseConfig | src/utils/models/config.py:119-138 | the record `Config.__init__` builds; its contents are `ConfigModels.BaseConfigFacts` |
| ConfigModels.BaseConfigFacts | src/utils/models/config.py:119-138 | root/`root` with the root keys, exactly one `debian`/`debian` with the user keys, the two scripts at their locations without steps, the default network, `root` emulator user and group, the default packages with update and upgrade, host `hostname`, no debugging |
| ConfigModels.Config.constructor | src/utils/models/config.py:119-138 | a new configuration's record is the base configuration, with fresh users |
| ConfigModels.ConfigInitBindingFour | src/utils/configs/nuc.py:5 | four positional arguments raise `TypeError: Config.__init__() takes 3 positional arguments but 4 were given` |
| ConfigModels.InitConfig | src/utils/models/config.py:119-138 | a call that binds yields a fresh base configuration; one that does not raises the binding error |
| ThinkpadConfig.ThinkpadOverrides | src/utils/configs/thinkpad.py:6-12 | the assignments after the base call, on a record; stated by `ThinkpadConfig.ThinkpadOverridesFacts` |
| ThinkpadConfig.ThinkpadOverridesFacts | src/utils/configs/thinkpad.py:4-12 | host `thinkpad`, the two lid-switch steps on the preseed script, interface `enp0s25`; everything else, firstboot included, unchanged, and well-formedness kept |
| ThinkpadConfig.ApplyThinkpad | src/utils/configs/thinkpad.py:6-12 | the in-place assignments turn the record into the ThinkPad overrides of the old one |
| ThinkpadConfig.NewThinkpadConfig | src/utils/configs/thinkpad.py:4-12 | always succeeds with the base configuration plus the ThinkPad overrides |
| NucConfig.NewNucConfig | src/utils/configs/nuc.py:4-5 | as written, always fails with the binding `TypeError`, before any override runs |
| NucConfig.NucOverrides | src/utils/configs/nuc.py:6-9 | the assignments after the base call, on a record; stated by `NucConfig.NucOverridesFacts` |
| NucConfig.NucOverridesFacts | src/utils/configs/nuc.py:6-9 | host `nuc`, debugging on, interface `enp3s0`; nothing else changes and well-formedness is kept |
| NucConfig.NucOverridesOnBase | src/utils/configs/nuc.py:9 | on the base configuration the interface is already `enp3s0`, so the network stays the default |
| NucConfig.ApplyNuc | src/utils/configs/nuc.py:6-9 | the in-place assignments turn the record into the NUC overrides of the old one |
| NucConfig.NewNucConfigIntended | src/utils/configs/nuc.py:4-9 | with the base call corrected, succeeds with the base configuration plus the NUC overrides |
| ConfigLookup.SelectConfig | src/utils/config.py:9-17 | `get_config` as written, on records; its cases are `ConfigLookup.SelectConfigOutcome` |
| ConfigLookup.SelectConfigOutcome | src/utils/config.py:9-17 | only `thinkpad` succeeds; `nuc` fails with the binding `TypeError`; other names raise `ConfigException("No config implemented for <name>")`; on success the keys pass through unchanged and the result is well-formed |
| ConfigLookup.GetConfig | src/utils/config.py:9-17 | the object returned is fresh and its record, or the error raised, is the one above |
| ConfigLookup.SelectConfigIntended | src/utils/config.py:9-17 | `get_config` with the NUC base call corrected; its cases are `ConfigLookup.SelectConfigIntendedOutcome` |
| ConfigLookup.SelectConfigIntendedOutcome | src/utils/config.py:9-17 | with the NUC call corrected, `nuc` and `thinkpad` both succeed with their own host name, the NUC one with debugging and the default network |
| ConfigLookup.GetConfigIntended | src/utils/config.py:9-17 | the corrected lookup as an object |

## Left out

- Process I/O (`subprocess.Popen`, `communicate`, text-mode decoding) is the oracle `respond`. The model keeps only the choice between text and bytes mode, because it decides which whitespace `strip` removes.
- The VM base class in `src/utils/vm.py` and the entry point `src/main.py` are not part of this model.
- File contents and the filesystem are parameters. Reading the file in `_transfer` is the `content` parameter, and `tempfile.mkdtemp` is the `mkdtemp` parameter. `shutil.rmtree` is a flag saying whether the scratch directory exists. For `download`, `os.path.abspath` is the `absDest` parameter, and the local `os.makedirs` is not modelled.
- Jinja2 template lookup and rendering (`_jinja_env`, `get_template`, `render`) are replaced by the `rendered` parameter. Writing that text to the scratch file is not modelled apart from the file's name. `as_dict` is the record `Config.Value()`.
- `md5_crypt.hash` is the symbolic `CryptHash(password, salt)`, with the random salt as a parameter. Real hash strings and collisions are not modelled.
- `uuid.uuid4` is the `uuid` parameter.
- Logging is not modelled.
- Python list aliasing is not modelled. `Multipass.__init__` passes the same `auth_keys` list to both users, and its default `[]` is shared between calls. The records here are values, so later mutation of a shared list is not visible.
- `ThinkpadConfig.ThinkpadOverrides`: requires the `preseed` script to be present. That key is always there after the base constructor, so the `KeyError` the Python code would raise otherwise is not modelled.
- `MultipassSession.Multipass.Exit`: the exception arguments of `__exit__` are ignored. Exceptions raised inside the `with` body are not modelled, since `__exit__` never suppresses them.
- `ShellWords` splits one simple command: blanks, single quotes and backslashes. For a line with an unquoted operator (`|`, `&&`, `;`, `>` and the rest), an expansion, a double quote, a glob or a comment, `Words` is `None`. The model does not say what the shell then runs, for example that the part after `&&` in an unquoted command runs on the host. The lemmas that use it require the machine name, directory and sizes to be plain words, free of those characters.
- Python dict order is not modelled. `script` is a Dafny `map`, but the Python dict keeps `preseed` before `firstboot`, and `asdict` hands that order to the templates. The rendering that could see the order is a parameter here.
- Running a command inside the VM, including how `multipass exec` passes arguments to the guest, is outside the model.

## Findings

| source | as written | input that shows it | evidently intended | confidence | as-written member | corrected member |
|---|---|---|---|---|---|---|
| src/utils/configs/nuc.py:5 | `super().__init__(self, root_auth_keys, user_auth_keys)` passes `self` twice, so `Config.__init__` receives four positional arguments where it takes three | `get_config("nuc", [], [])` raises `TypeError` before the NUC overrides run | the base configuration with host `nuc`, debugging on and interface `enp3s0` | not executed | NucConfig.NewNucConfig | NucConfig.NewNucConfigIntended |
| src/utils/multipass.py:84-87 | a command containing `\|` is wrapped in single quotes without escaping quotes inside it | `cmd("a \| b 'c d'")` reaches `multipass exec` as the two arguments `a \| b c` and `d` | the whole command as one argument, with embedded quotes written as `'\''` | not executed | Forwarding.EmbeddedQuoteSplitsCommand | Forwarding.EscapedPipeIsOneWord |
