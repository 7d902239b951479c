# saltbox, modelled in Dafny

saltbox runs SaltStack from a self-contained prefix (a "box"). It keeps a
**registry** of template roots in `etc/saltbox/registry.txt`. **Installing** a
recipe package adds the package to that registry. With the cache on, a copy of
the package goes into a digest-named cache slot and the slot is registered
instead. When the salt configuration does not exist yet, the bundled bottom
template is registered first.

**Refreshing** copies every registered root into a scratch directory and renders
each file there in place with Jinja, using remapped delimiters. The result is
merged over the salt root with rsync, under a lock file. Salt commands run from
the box's `bin` directory against its configuration. The master and minion
**daemons** are started, signalled and waited for through their pid files.
**Formulas** are named salt commands listed in a box's `saltbox.yaml`
manifest.

The model covers the four core files:

- **`registry.dfy` (`Registries`):** `Registry`. Parsing and printing of the
  registry file, and `append`, `from_file` and `to_file`.
- **`boxconfig.dfy` (`BoxConfig`):** `SaltBoxConfig`. Its attributes, its
  derived paths and `from_env`.
- **`installation.dfy` (`Installation`):** `installer_factory`. The
  `BottomTemplate`/`Cache`/`RegistryWriter` stack, its `add_package` chain,
  and the `install` with-block.
- **`templates.dfy` (`Templates`):** `TemplateSync.copy_tree` and
  `RecipeTemplate`. The Jinja environment, the in-place rendering loop and
  `render_to_path`.
- **`rendering.dfy` (`Rendering`):** `TemplateRenderer`. `render_one`,
  `render_all`, `_merge` and `__enter__`.
- **`execution.dfy` (`Execution`):** `Executor._format_args` and `execute`.
- **`daemons.dfy` (`Daemons`):** `SaltDaemon`, `SaltMaster` and `SaltMinion`.
  `start`, `stop`, `wait`, `pid` and `from_config`.
- **`formulas.dfy` (`Formulas`):** `Formula`, `Manifest` and `Box`. Argument
  checking, `run`, the formula table and manifest loading.

Shared vocabulary:

- **`common.dfy`:** options, results, and the Python exceptions that are
  raised.
- **`paths.dfy`:** `os.path.join` and `os.path.dirname`.
- **`disk.dfy`:** the filesystem, as a snapshot value and as a mutable
  `FileSystem` object. Each directory maps to its tree of relative paths.

Operations that change the filesystem in place are methods that take a
`FileSystem` object (`WriteLines`, `PrepareSaveOn`, `CopyTreeOn`,
`CopyTreeIntoOn`, `MergeOn`, `RenderOneOn`, `RenderAll`, `Refresh`,
`Install`), or methods of the classes `Registry`, `Installer`,
`RecipeTemplate` and `SaltDaemon`, which update their own fields. Most of
them are proved equal to a pure specification function, about which the
properties are then proved. `SaltDaemon.Start` and `SaltDaemon.Stop` state
their new flag and their exception directly.

What the model cannot see becomes a parameter:

- `os.path.abspath` and `hashlib.md5(...).hexdigest()`.
- The Jinja engine, as a partial function from environment, path, text and
  variables to the rendered text.
- Whether rsync is installed.
- What `subprocess.call` does with an argument vector: it returns an exit
  code, or it raises (for a missing or non-executable program).
- The outcome of `os.kill`: it returns, or it raises.
- What each one-second probe `os.kill(pid, 0)` of `wait` does: it returns
  while the process exists and may be signalled, or it raises
  (`ProcessLookupError` once the process is gone, `PermissionError` for a
  process of another user).
- `shlex.split`, `json.dumps` and the YAML loader.
- The scratch directory name `tempfile` picks.

## Model

| member | source | states |
|---|---|---|
| Paths.Join | src/saltbox/api.py:167-169 | an absolute second part replaces the first; otherwise the result starts with the first part and ends with the second |
| Paths.Dirname | src/saltbox/api.py:67 | the parent is a prefix of the path, and a path with no `/` has the empty parent |
| Registries.Strip | src/saltbox/api.py:61 | the stripped line is the part of the line left once the whitespace at both ends is removed: an infix of the line with only whitespace around it and none at its own ends; a line already trimmed is kept |
| Registries.Parse | src/saltbox/api.py:57-64 | every root read from a registry file is non-empty, on one line and without surrounding whitespace |
| Registries.ParseSerialize | src/saltbox/api.py:57-72 | writing well-formed roots with `to_file` and reading them back with `from_file` gives the same list, in order |
| Registries.ParseIsNormalForm | src/saltbox/api.py:57-72 | a registry that has been loaded once survives a save and a reload unchanged |
| Registries.Serialize | src/saltbox/api.py:70-72 | the text is empty exactly when there are no roots, and otherwise ends with the last root and a newline; `ParseSerialize` reads it back |
| Registries.AppendRoot | src/saltbox/api.py:43-46 | the list is unchanged if and only if the root was already there; otherwise the root is added at the end; the old list is a prefix; membership grows by exactly the root; no duplicate is introduced |
| Registries.AppendRootIdempotent | src/saltbox/api.py:39-46 | appending the same root twice has the effect of appending it once |
| Registries.CheckedAppend | src/saltbox/api.py:39-46 | succeeds exactly when the resolved path is an existing directory; otherwise `AssertionError` carrying the path as given; on success the resolved path is appended |
| Registries.FromFile | src/saltbox/api.py:57-64 | a missing file is the empty registry, a regular file is parsed, a directory raises `IsADirectoryError` |
| Registries.SaveSpec | src/saltbox/api.py:66-72 | on success the file holds the serialised roots and at most the parent directory was created; a failure leaves the files alone; an existing parent is written straight into; a missing parent of a relative file raises `FileNotFoundError` |
| Registries.Registry.constructor | src/saltbox/api.py:52-54 | `from_list` holds exactly the given roots |
| Registries.Registry.Append | src/saltbox/api.py:39-46 | the new list is what `CheckedAppend` computes; after an error the list is unchanged |
| Registries.Registry.ToFile | src/saltbox/api.py:66-72 | the new filesystem and exception are those of `SaveSpec` |
| Registries.PrepareSave | src/saltbox/api.py:67-69 | before writing, `to_file` changes no file and at most creates the missing parent; it succeeds only with the parent a directory and the target not one; an empty missing parent raises `FileNotFoundError`, a parent that is a file `NotADirectoryError`, a target that is a directory `IsADirectoryError` |
| Registries.PrepareSaveOn | src/saltbox/api.py:67-69 | the preparation performed in place has the outcome `PrepareSave` specifies |
| Registries.WriteLines | src/saltbox/api.py:70-72 | the loop writing each root followed by a newline leaves the file holding `Serialize` of the roots and changes nothing else |
| BoxConfig.AttrInjective | src/saltbox/api.py:330 | distinct keywords are stored under distinct attributes |
| BoxConfig.FromEnv | src/saltbox/api.py:326-331 | the prefix is always set, by default to `sys.prefix`; every keyword is stored under its underscore name; no other attribute appears |
| BoxConfig.FromEnvDefaults | src/saltbox/api.py:290-331 | after `from_env` the configuration is well typed; `use_install_cache` is false unless given; `bin_prefix` is `prefix/bin` unless given |
| BoxConfig.UseInstallCache | src/saltbox/api.py:290-294 | the stored value when one was given, otherwise a false value |
| BoxConfig.SaltboxCacheRoot | src/saltbox/api.py:296-298 | the cache root is the prefix, at most one separator, then `var/cache/saltbox` |
| BoxConfig.SaltRootPath | src/saltbox/api.py:300-302 | the salt root is the prefix itself |
| BoxConfig.SaltConfigPath | src/saltbox/api.py:304-306 | the salt configuration is the salt root, at most one separator, then `etc/salt` |
| BoxConfig.SaltRunPath | src/saltbox/api.py:308-310 | the run directory is the salt root, at most one separator, then `var/run` |
| BoxConfig.BinPrefix | src/saltbox/api.py:312-316 | a given `bin_prefix` is used as stored; otherwise it is the prefix, at most one separator, then `bin` |
| BoxConfig.SaltboxRegistryPath | src/saltbox/api.py:318-320 | the registry file is the prefix, at most one separator, then `etc/saltbox/registry.txt` |
| BoxConfig.LayoutUnderPrefix | src/saltbox/api.py:284-320 | the cache root, salt configuration, run directory and registry file all lie under the prefix and are pairwise distinct |
| Installation.CacheDir | src/saltbox/api.py:164-170 | the cache slot lies under the cache root and ends with the package's 32-digit digest |
| Installation.CacheDirInjective | src/saltbox/api.py:164-170 | two packages share a slot exactly when their digests are equal |
| Installation.BottomTemplatePath | src/saltbox/api.py:188-190 | the bottom template is the directory `template` next to the module |
| Installation.InstallerBases | src/saltbox/api.py:273-281 | `RegistryWriter` comes last; `BottomTemplate` is present, and first, exactly when the salt configuration is missing; `Cache` is present exactly when the cache is on; no layer repeats |
| Installation.CopyTree | src/saltbox/api.py:174 | `copytree` succeeds exactly when the source is a directory and the target does not exist; on success the target holds the source's tree; an existing target raises `FileExistsError` and changes nothing |
| Installation.AddPackageChain | src/saltbox/api.py:133-190 | `add_package` through the stack only grows the registry at its end, never removes a directory and leaves files alone; without a loaded registry it stays unloaded |
| Installation.BottomTemplateFirst | src/saltbox/api.py:184-186 | without configuration or cache, the bottom template is registered before the package, both appear, and no duplicate arises |
| Installation.ReinstallIdempotent | src/saltbox/api.py:133-190 | without the cache, installing the same package a second time changes nothing |
| Installation.CacheRelocates | src/saltbox/api.py:172-175 | with the cache, the registry receives the cache slot, and the slot holds a copy of the package |
| Installation.CachedReinstallFails | src/saltbox/api.py:172-175 | with the cache, a package whose slot is occupied raises `FileExistsError` and nothing is registered |
| Installation.SecondCachedInstallFails | src/saltbox/api.py:172-190 | with the bottom template and the cache both stacked, every install after a successful one fails on the bottom template's occupied slot |
| Installation.FailedInstallRewritesRegistry | src/saltbox/api.py:152-155 | a failed install still rewrites the registry file with the normalised form of what was loaded |
| Installation.CopyTreeOn | src/saltbox/api.py:174 | the copy performed in place has the outcome `CopyTree` specifies |
| Installation.Installer.constructor | src/saltbox/api.py:273-281 | the stack is `InstallerBases` of the configuration; the cache root is created when the cache layer is present |
| Installation.Installer.Enter | src/saltbox/api.py:148-150 | entering loads the registry as `from_file` reads it, and changes no file |
| Installation.Installer.AddFrom | src/saltbox/api.py:273-281 | `add_package` dispatched along the stack's method resolution order, from a given layer on, has the outcome `AddPackageChain` specifies for the rest of the stack |
| Installation.Installer.AddBottom | src/saltbox/api.py:184-186 | the bottom template's `add_package` has the outcome `AddPackageChain` specifies: the bundled template through the rest of the stack, then the package |
| Installation.Installer.AddCached | src/saltbox/api.py:172-175 | the cache's `add_package` has the outcome `AddPackageChain` specifies: copy into the slot, then pass the slot on |
| Installation.Installer.AddRegistered | src/saltbox/api.py:138-140 | the registry writer's `add_package` has the outcome `AddPackageChain` specifies: a bare assertion without a loaded registry, else `append` |
| Installation.Installer.AddPackage | src/saltbox/api.py:133-190 | `add_package` has the outcome `AddPackageChain` specifies for the whole stack |
| Installation.Installer.Exit | src/saltbox/api.py:152-155 | exiting saves the registry as `SaveSpec` specifies; it forgets the registry only when the save succeeded, and a save that raises leaves it loaded; without a loaded registry it raises `AttributeError` |
| Installation.CacheInit | src/saltbox/api.py:159-162 | the cache root exists afterwards, created empty when it was missing; no file and no existing directory changes |
| Installation.InstallSpec | src/saltbox/api.py:148-162 | the install changes no file but the registry file and removes no directory; a registry path that is a directory raises `IsADirectoryError` |
| Installation.InstallLoaded | src/saltbox/api.py:148-155 | once the registry is loaded, adding and saving change no file but the registry file and remove no directory |
| Installation.Install | src/saltbox/__main__.py:36-40 | the `install` with-block has the outcome `InstallSpec` specifies, where an exception raised while saving replaces one from the body |
| Templates.JinjaEnvFor | src/saltbox/template.py:28-37 | the loader is rooted at the template root; the variable markers are `{{$` and `$}}`; no marker is one of Jinja's defaults; the block and comment markers are distinct |
| Templates.GlobbedJoin | src/saltbox/template.py:50-54 | the recursive glob takes a path exactly when it takes both halves around any separator, so one hidden component anywhere excludes the path |
| Templates.RenderIsolation | src/saltbox/template.py:39-59 | rendering adds and removes no path; directories, hidden paths and failed files keep their copied entry; every other file becomes the engine's output; the warnings are exactly the failed files |
| Templates.NormalizeVars | src/saltbox/template.py:66 | missing or empty variables become `{}`; non-empty ones are kept |
| Templates.CopyTreeInto | src/saltbox/template.py:11-16 | `copy_tree` succeeds exactly when both paths are directories; a bad source raises `AssertionError` naming it, and so does a bad destination with a good source; on success the target holds the union of both trees, source entries replacing the target's and target-only entries kept |
| Templates.CopyTreeIntoOn | src/saltbox/template.py:11-16 | the copy performed in place has the outcome `CopyTreeInto` specifies |
| Templates.RecipeTemplate.constructor | src/saltbox/template.py:25-26 | the template remembers its root |
| Templates.RecipeTemplate.RenderOneInPlace | src/saltbox/template.py:39-47 | a file the engine renders is overwritten with the output; a failure only warns and leaves the file |
| Templates.RecipeTemplate.Render | src/saltbox/template.py:49-62 | the root's tree becomes `RenderedTree` of the original, nothing else changes, and the warnings are exactly `Failures` |
| Templates.RenderToPath | src/saltbox/template.py:64-70 | a failed copy changes nothing; otherwise the target is the rendered copy and the target path is returned |
| Rendering.Merge | src/saltbox/api.py:208-214 | after `_merge` the destination holds the lock file; which paths it holds, and with what content, is stated by `MergeOverlays` |
| Rendering.MergeOverlays | src/saltbox/api.py:208-214 | after `_merge` the salt root holds exactly the paths of either tree plus the lock file; rendered entries win; other entries are kept |
| Rendering.TemplateVars | src/saltbox/api.py:196 | the template variables are exactly `SALTROOT`, bound to the salt root |
| Rendering.RenderOne | src/saltbox/api.py:200-206 | succeeds exactly when the root is a directory, rsync is present and the salt root is a directory; the errors come in source order; the salt root's tree becomes its merge with the rendered root, and no other entry of the filesystem map changes (nested paths under the salt root are not re-read; see Left out) |
| Rendering.RenderAllSpec | src/saltbox/api.py:195-198 | `render_all` changes only the salt root's tree among the entries of the filesystem map (nested paths under it are not re-read; see Left out); no roots means no change |
| Rendering.RenderAllIsOverlay | src/saltbox/api.py:195-214 | with rsync and an existing salt root, `render_all` leaves the salt root as its old tree overlaid with each rendered root in registry order |
| Rendering.RenderAllFailsIff | src/saltbox/api.py:195-214 | `render_all` raises exactly when there is some root and rsync is missing, the salt root is not a directory, or some root is not |
| Rendering.StackIsOverride | src/saltbox/api.py:208-214 | merging layers one after another is overriding the base with a single map |
| Rendering.StackLastWins | src/saltbox/api.py:195-214 | the last rendered root that holds a path decides its entry |
| Rendering.StackKeeps | src/saltbox/api.py:208-214 | no path is ever removed from the salt root, and a path no layer holds keeps its entry |
| Rendering.StackIdempotent | src/saltbox/api.py:208-214 | merging the same layers a second time changes nothing |
| Rendering.RenderAllIdempotent | src/saltbox/api.py:195-214 | refreshing twice is refreshing once |
| Rendering.RefreshOverlaid | src/saltbox/api.py:220-223 | refreshing a salt root that already carries the overlay of the registered roots leaves the filesystem unchanged and raises nothing |
| Rendering.MergeOn | src/saltbox/api.py:208-214 | without rsync `_merge` raises the assertion; a missing destination raises the lock's error; otherwise the destination becomes `Merge` of its tree and the scratch tree |
| Rendering.RenderOneOn | src/saltbox/api.py:200-206 | copy, render, merge and scratch removal in place have the outcome `RenderOne` specifies |
| Rendering.RenderAll | src/saltbox/api.py:195-198 | the loop over the roots in place has the outcome `RenderAllSpec` specifies |
| Rendering.Refresh | src/saltbox/api.py:220-223 | `__enter__` loads the registry, raising what `from_file` raises, then renders all registered roots into the salt root |
| Execution.FormatArgs | src/saltbox/api.py:230-240 | empty arguments or a missing configuration raise `AssertionError`; otherwise the command is looked up under `bin_prefix`, followed by the configuration directory and log level, then the remaining arguments unchanged |
| Execution.FormatArgsInjective | src/saltbox/api.py:230-240 | with relative commands, two argument lists format to the same vector exactly when they are equal |
| Execution.Execute | src/saltbox/api.py:242-244 | `execute` raises the formatting error; otherwise its outcome is what `call` does with the formatted vector, the exit code or the exception raised starting the program |
| Daemons.ParseInt | src/saltbox/salt_helpers.py:100 | `int()` accepts exactly the text that, once stripped, is a digit string with an optional sign, and gives the signed value of the digits |
| Daemons.ParseDecimal | src/saltbox/salt_helpers.py:95-100 | a pid file holding `str(pid)`, with or without a final newline, reads back as that pid |
| Daemons.StartArgv | src/saltbox/salt_helpers.py:67-69 | the command is the daemon's executable, `--config-dir` and the configuration directory, `--log-level` and `debug`, followed by `--daemon` exactly when asked to |
| Daemons.PollUntilRaise | src/saltbox/salt_helpers.py:87-88 | the polling loop stops at the first probe that raises, after probes that all returned normally |
| Daemons.WaitAsWritten | src/saltbox/salt_helpers.py:82-89 | as written, `wait` never clears the running flag; on a running daemon with a pid it probes until a probe raises and raises that exception, whether `ProcessLookupError` or another |
| Daemons.WaitCorrected | src/saltbox/salt_helpers.py:82-89 | the corrected `wait` returns normally exactly when it leaves the daemon stopped; with a pid it probes until a probe raises, stopping the daemon exactly when that probe reports the process gone, and raising any other exception of the probe with the flag kept |
| Daemons.WaitCounterexample | src/saltbox/salt_helpers.py:82-89 | a daemon with pid 42 that exits after three probes: the written `wait` raises `ProcessLookupError(42)` with the flag still set, while the corrected one returns stopped |
| Daemons.WaitCorrectedStops | src/saltbox/salt_helpers.py:82-89 | the corrected `wait` on a running daemon with a pid returns normally, stopped, when probing ends because the process is gone; on all other inputs, a refused probe included, it agrees with the written one |
| Daemons.WaitPermissionDenied | src/saltbox/salt_helpers.py:82-89 | a live daemon of another user: the first probe raises `PermissionError`, and both `wait`s raise it with the daemon still marked running |
| Daemons.SaltDaemon.constructor | src/saltbox/salt_helpers.py:56-60 | a new daemon is not running and reads the box's configuration and run paths |
| Daemons.SaltDaemon.PidPath | src/saltbox/salt_helpers.py:97 | the pid file is the run directory, at most one separator, then the daemon's `PIDFILE` |
| Daemons.DaemonNames | src/saltbox/salt_helpers.py:116-123 | each daemon's pid file is its program name with `.pid`; the master and the minion share neither program nor pid file |
| Daemons.SaltDaemon.Pid | src/saltbox/salt_helpers.py:95-100 | no pid file gives `None`; a directory raises `IsADirectoryError`; unparsable text raises `ValueError`; a parsable file gives the parsed integer |
| Daemons.SaltDaemon.Start | src/saltbox/salt_helpers.py:62-72 | a running daemon is left alone; otherwise the start command is spawned and the daemon runs exactly when the exit code is 0; another code raises `AssertionError` naming it, and a spawn that raises passes its exception on; either way the flag stays clear |
| Daemons.SaltDaemon.Stop | src/saltbox/salt_helpers.py:74-80 | a stopped daemon is left alone; an unreadable pid raises and keeps the flag; a missing pid just clears it; otherwise the pid is signalled with 2, and the flag clears exactly when the signal succeeded |
| Daemons.SaltDaemon.Wait | src/saltbox/salt_helpers.py:82-89 | `wait` as written has the outcome `WaitAsWritten` specifies |
| Daemons.SaltDaemon.WaitIntended | src/saltbox/salt_helpers.py:82-89 | the corrected `wait` has the outcome `WaitCorrected` specifies |
| Daemons.FromConfig | src/saltbox/salt_helpers.py:108-113 | a fresh daemon for the box, which is started as a background daemon only when asked; it runs exactly when that start exited with code 0, and otherwise the error is returned |
| Formulas.RequiredArgs | src/saltbox/formula.py:21 | the corrected required set holds exactly the `dest` of every declaration with a truthy `required` |
| Formulas.CheckAsWritten | src/saltbox/formula.py:22-24 | the written comparison raises only when the provided keys are a proper subset of the required ones, naming the missing keys |
| Formulas.CheckCorrected | src/saltbox/formula.py:22-24 | the corrected comparison raises exactly when a required key is missing, naming the missing keys |
| Formulas.RequiredArgsAsWritten | src/saltbox/formula.py:21 | as written, the required set is always empty |
| Formulas.VerifyArgsAsWritten | src/saltbox/formula.py:20-24 | as written, `_verify_args` never raises |
| Formulas.CheckAgreement | src/saltbox/formula.py:22-24 | when the written comparison raises, the corrected one raises the same error; without extra arguments the two agree |
| Formulas.VerifyArgsCounterexample | src/saltbox/formula.py:20-24 | a formula requiring `target`, checked with only `verbose`: both written checks pass it, and the corrected check raises naming `target` |
| Formulas.RunArgs | src/saltbox/formula.py:51-62 | the runner's words come first, followed by the formula name, the JSON pillar and the salt environment |
| Formulas.Run | src/saltbox/formula.py:54-62 | `run` as written: a raising check would be the error; otherwise the outcome is `execute` of the runner's words, the name, the pillar and the salt environment |
| Formulas.RunNeverChecks | src/saltbox/formula.py:54-62 | as written, `run` always executes the command: its outcome is that of `execute`; a missing configuration raises its assertion, and otherwise the outcome is what `call` does with the formatted command |
| Formulas.RunCorrected | src/saltbox/formula.py:54-62 | `run` with the corrected check raises `TypeError` naming the missing required arguments; with all of them given, a missing configuration raises its assertion, and otherwise the outcome is what `call` does with the formatted command |
| Formulas.RunCounterexample | src/saltbox/formula.py:54-62 | a formula requiring `target`, run with only `verbose`: as written the command runs and its outcome is returned; as intended `run` raises naming `target` |
| Formulas.RunVerifiesFirst | src/saltbox/formula.py:54-62 | with the corrected check, a missing required argument decides the outcome before the filesystem or the child process is consulted |
| Formulas.RunCommandLine | src/saltbox/formula.py:54-62 | the executed vector ends with the formula name, pillar and salt environment; with an empty runner the formula name becomes the program |
| Formulas.FormulaTable | src/saltbox/formula.py:82-84 | the table's names are exactly the entries' names, and each maps to an entry of that name |
| Formulas.LastEntryWins | src/saltbox/formula.py:82-84 | of several entries with one name, the last one is kept |
| Formulas.LoadManifest | src/saltbox/formula.py:75-80 | loading succeeds exactly when the path is a regular file, and then yields the loaded entries; otherwise `AssertionError` |
| Formulas.BoxManifest | src/saltbox/formula.py:93-96 | the manifest is the file `saltbox.yaml` directly inside the box, and loading succeeds exactly when it is a regular file |

## Left out

- rsync's transfer is modelled by its effect: the scratch tree is overlaid on the salt root. Its exit status is ignored, as `run` ignores it. Mutual exclusion by `FileLock` is not modelled: there is no concurrency.
- The lock file `lock` is modelled as an empty file created in the salt root; it is never deleted, as the filelock library leaves it. A missing salt root raises the error opening the lock file raises.
- Rendering.RenderOne: nested directories are independent entries of the filesystem map, and merging changes only the salt root's own entry. In the source the salt root is the prefix itself, so the salt configuration (`etc/salt`), the run directory (`var/run`), the cache (`var/cache/saltbox`) and the registry file (`etc/saltbox/registry.txt`) all lie inside the tree a refresh writes. A rendered root that carries such paths changes them in the source: it can create the salt configuration (after which `execute` passes its assertion and `installer_factory` no longer stacks `BottomTemplate`), rewrite the registry or a pid file, or overwrite a cached root that a later step of the same refresh reads. The model's separate entries for those paths are not updated.
- Rendering.RenderAllSpec: the same gap as `RenderOne`, once per root.
- Directories are independent entries of the filesystem map. A nested directory is an entry of its parent's tree, not a linked `dirs` entry, so a copy or merge moves whole trees. Permissions, symlinks and timestamps are left out.
- The recursive glob of a root is modelled as the set of paths without a dot-prefixed component. The engine sees only the file it renders: Jinja's loader, rooted at the scratch directory, can also include, import or extend sibling files that an earlier step already overwrote in place. That cross-file loading, and its dependence on `iglob` order, are not modelled.
- Jinja itself, its loader and `keep_trailing_newline` are a parameter. A rendering that raises is a `None` output, and its warning is the path.
- The scratch directory of `render_one` is a single name `tmp`, assumed fresh and distinct from every root and from the salt root. `tempfile` picks a new one each time.
- `os.path.abspath`, `hashlib.md5`, `shlex.split`, `json.dumps` and the YAML loader are parameters. Their own behaviour is not modelled.
- `subprocess.call` and `os.kill` are parameters that return a value or raise an exception, and an exception they raise propagates unchanged. Which exception a given failure raises is not modelled. `Executor.run`, which captures output, is not modelled.
- `MasterFactory`, `MinionFactory`, `SaltBox.executor_factory` and `refresh_factory` (whose master/minion branches raise `NotImplementedError`) are not part of this model. Neither are `SaltConfig`, `Formula.parser`, the command-line entry points, `utils.py` and `venv.py`: they configure salt and argparse rather than the box.
- Daemons.SaltDaemon.Wait: `time.sleep` is not modelled. Some probe by a given `deadline` is assumed to raise, so a `wait` that polls forever on a process that never exits is not modelled.
- Daemons.ParseInt: `int()` also accepts non-ASCII decimal digits; only ASCII digits and single underscores between digits are modelled.
- Daemons.SighupSignal is 2, as written. On POSIX that is SIGINT, not SIGHUP (1). The model keeps the written value.
- Registries.SaveSpec: when the parent directory is missing, the contract says only that at most that directory is created. `os.makedirs` may also create missing ancestors, and that is not modelled exactly.
- The registry rewrite: a failed install rewrites the registry file in its normalised form. The file is not left byte-for-byte as it was. The code saves the loaded registry on every exit, and the model follows the code (`Installation.FailedInstallRewritesRegistry`).
- Formulas.RequiredArgs: a declaration with a truthy `required` but no string `dest` is skipped. Python would raise `KeyError`, or argparse would reject the declaration.
- Formula and manifest entries missing one of the keys `name`, `runner`, `saltenv`, `config` or `args` (a `KeyError` in Python) are not modelled. Entries are records with all five.

## Findings

| source | as written | input that shows it | evidently intended | confidence | as-written member | corrected member |
|---|---|---|---|---|---|---|
| src/saltbox/salt_helpers.py:87-89 | `while not os.kill(pid, 0)` loops while `os.kill` returns `None`. The loop is left only by an exception of `os.kill`, normally the `ProcessLookupError` raised once the process is gone, so `_running = False` is never reached. | a running daemon with pid 42 that exits after three probes | `wait` returns normally once the process is gone, and the daemon is no longer running | not executed | Daemons.WaitCounterexample | Daemons.WaitCorrectedStops |
| src/saltbox/formula.py:21 | `hasattr(x, 'required')` on a dict asks for an attribute, not a key, and is always false. The required set is therefore always empty. | a formula whose `args` declare `{"dest": "target", "required": true}`, run with only `verbose` | the required set holds each `dest` whose `required` key is truthy | not executed | Formulas.RequiredArgsAsWritten | Formulas.RequiredArgs |
| src/saltbox/formula.py:22 | `required_args > provided` is the strict-superset test. Missing arguments go unreported whenever an extra argument is also given. | required `{"target"}`, provided `{"verbose"}` | raise whenever some required argument is not provided | not executed | Formulas.VerifyArgsCounterexample | Formulas.CheckCorrected |
| src/saltbox/formula.py:55 | `run` calls the written `_verify_args`, which never raises, so the command is executed whatever required argument is missing. | the formula requiring `target`, run with only `verbose` on a box whose configuration exists | `run` raises `TypeError` naming `target` before anything is executed | not executed | Formulas.RunCounterexample | Formulas.RunCorrected |
