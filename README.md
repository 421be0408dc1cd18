# goci: a Dafny model of the build orchestrator

goci is a small continuous-integration server for Go projects. Each project
is a local git clone. A request for `/project/ref/...` resolves the
reference to a short commit id and looks up or creates the `Build` for that
id. It then starts the build at most once: one compare-and-set moves the
status from NotStarted to InProgress, and only the caller that wins runs the
pipeline. The pipeline does four things in order:

- It checks whether an earlier run crashed, using the two `os.Mkdir` calls
  for the `code` and `files` directories.
- It checks out the commit, resets the work tree, and reads the `goci.targets`
  setting from git configuration.
- It parses the target descriptors (`os:arch(tag,tag,...)`) in that setting.
- It runs one `go build` per target. Each run gets its own environment
  (`GOOS`, `GOARCH`, `CGO_ENABLED`, and `CC` when a C cross compiler is
  known). A failed run stops the loop.

A deferred finaliser then decides the final status. An error replaces the log
and forces Failed, a failed build removes the files directory, and the status
is stored last. The HTTP front end routes requests to the status page or to
the built files of a finished build, redirects names that are not canonical,
and starts builds from webhooks.

The project has these modules:

- `Wrappers`: `Option`.
- `Strs`: `strings.Split`/`Join`/`Index`/`TrimRight`, `%d`.
- `Exec`: `Result` (a value or an error text); command values; the `World` that answers for git, `go build`, the
  environment and mkdir faults; `Project.exec`'s post-processing; `cmd.String()`.
- `FileSys`: the disk as a set of paths; `os.Mkdir`, `os.MkdirAll`,
  `os.RemoveAll`; a `FileSystem` object.
- `Targets`: the target regular expression, written as a matcher;
  descriptor parsing; output names; the build environment; the cgo compiler
  table.
- `TargetProps`: properties of parsing, names and environments.
- `Projects`: the `Project` and `Build` classes.
  - The pipeline is specified as the function `Pipeline` on values.
  - It is carried out statement by statement by `Build.Run` and its helper
    methods, whose contracts tie them to that function.
- `PipelineProps`: what the pipeline promises, proved about `Pipeline`: the
  crash-recovery cases, the setup errors, the target loop's status, log,
  commands, artifacts and platform errors, and the files directory of a
  failed build.
- `Serve`: `splitFirst`; routes; the guard chains of `ServeHTTP` and
  `HandleWebhook`; the two actions; the `CI` project cache.

These details of project.go are modelled as written:

- The tag that switches on cgo is literally `cgo`.
- A descriptor without a tag group gives the tag list `[""]`, not `[]`. Its
  output name therefore ends in `-` (`demo-linux-amd64-`), and `go build`
  gets `-tags ""`.
- A missing `goci.targets` key makes `git config` exit with an error, so the
  build fails with that git error. It does not fall back to the default
  target, which only an empty value gives.
- Crash recovery looks only at whether the `code` directory already existed.
  If it did, the build is Finished exactly when the `files` directory also
  existed, Failed otherwise. No command is run and the stored log is kept.
- Inside the target loop only the cgo compiler table writes the outer
  `err`. An unknown OS overwrites an unknown-architecture error. Such an
  error does not stop the loop, but the finaliser turns it into Failed with
  the error text as the whole log.
- A `go build` that exits with an error adds a newline and the exit message
  to the log. One that could not start adds nothing and leaves its error
  unrecorded.

## Model

| member | source | states |
|---|---|---|
| Exec.Output | project.go:53-65 | a command that exited yields its standard output with only trailing newlines removed; an exit error yields "git error: " and its stderr; any other error passes through |
| Exec.CommandLine | project.go:267 | `cmd.String()` starts with the resolved program path |
| Exec.CommandLineBare | project.go:267 | the line is the bare path exactly when there is no argument after the program name |
| Strs.Split | project.go:179 | `strings.Split` gives at least one piece and no piece contains the separator |
| Strs.JoinSplit | project.go:179 | joining the pieces of a split with the separator gives back the string |
| Strs.SplitJoin | project.go:191 | splitting a join of separator-free pieces gives back the pieces |
| Strs.Index | serve.go:29 | `strings.Index`: -1 exactly when the character is absent, otherwise the position of its first occurrence |
| Strs.TrimTrailing | project.go:64 | `strings.TrimRight(s, "\n")`: a prefix of `s`, followed in `s` only by newlines, and not itself ending in one |
| Strs.NatToString | project.go:73 | `%d`: decimal digits only, no leading zero, and the value of the digits is the number |
| Strs.Utf8Length | project.go:73 | `len(ref)` counts UTF-8 bytes: one to four per character, and exactly the character count when every character is ASCII |
| FileSys.Mkdir | project.go:144-145 | `os.Mkdir` reports existing exactly when the path exists, creates it exactly when it is new and not faulted, and otherwise changes nothing |
| FileSys.MkdirAll | project.go:105 | `os.MkdirAll` succeeds exactly when the path exists or nothing faults; on success the path exists and nothing was removed, and a new path is added together with exactly its ancestors; on failure nothing changed |
| FileSys.Ancestry | project.go:105 | the directories `os.MkdirAll` makes: exactly the non-empty prefixes of the path that are the whole path or are followed in it by a slash |
| FileSys.RemoveAll | project.go:139 | `os.RemoveAll` removes exactly the path and everything below it |
| FileSys.FileSystem.MakeDir | project.go:144-145 | the disk object follows `Mkdir` |
| FileSys.FileSystem.MakeDirAll | project.go:105 | the disk object follows `MkdirAll` |
| FileSys.FileSystem.RemoveTree | project.go:139 | the disk object follows `RemoveAll` |
| Targets.WordEnd | project.go:290 | the greedy `\w*` scan: every character it passes is a word character, and it stops at the end or at a character that is not one |
| Targets.TagGroup | project.go:290 | the optional `\((\w+(?:,\w+)*)\)` group is empty or a comma-separated list of words |
| TargetProps.TagGroupIff | project.go:290 | the group is not empty exactly when `(`, a comma-separated list of words and `)` follow, and it is then exactly the text between the parentheses |
| TargetProps.TagGroupComplete | project.go:290 | a complete group of one or more words is read as the text between its parentheses, whatever follows it |
| Targets.MatchAt | project.go:290 | a match from a position has a word for OS and architecture and an empty or well-formed tag list |
| TargetProps.MatchAtIff | project.go:290 | the pattern matches at a position exactly when a word, a colon and a word start there |
| TargetProps.MatchAtGroups | project.go:290 | a match consists of its first group, a colon and its second group, read greedily, with the tag group read right after them |
| TargetProps.MatchAtSlices | project.go:290 | a word, a colon and a greedily read word at a position are matched with exactly those words as groups |
| Targets.FindFrom | project.go:180 | a match found from a position has a word for OS and architecture and an empty or well-formed tag list |
| TargetProps.FindFromNone | project.go:180-184 | `FindStringSubmatch` finds nothing exactly when the pattern matches at no position |
| TargetProps.FindFromLeftmost | project.go:180 | a match found is the one at the leftmost position where the pattern matches |
| Targets.QuotePlain | project.go:182 | `%q` of printable ASCII without quotes or backslashes is the text in double quotes |
| Targets.Quote | project.go:182 | `%q` text starts and ends with a double quote and is at least two characters longer than its input |
| Targets.DropTag | project.go:191-197 | removing the `cgo` tag keeps a tag exactly when it was there and is not `cgo`, and never lengthens the list |
| Targets.TargetOf | project.go:186-197 | a target keeps the match's OS and architecture, uses cgo exactly when `cgo` is among the split tags, and keeps exactly the other split tags |
| Targets.ParseToken | project.go:180-199 | a descriptor fails with "Invalid target " and its quoted text exactly when nothing in it matches; otherwise OS and architecture are words, no tag is `cgo`, and the target is built from the leftmost match's groups: `cgo` among the split tags switches cgo on and the other tags are kept |
| Targets.ParseTokens | project.go:179-200 | a successful parse gives one target per descriptor |
| Targets.ParseConfig | project.go:175-201 | an empty setting gives the single default target; any success gives at least one target |
| Targets.ParseOne | project.go:180-199 | the per-descriptor loop body computes `ParseToken` |
| Targets.ParseTargets | project.go:175-201 | the parsing loop computes `ParseConfig`, stopping at the first invalid descriptor |
| Targets.CcArch | project.go:235-245 | the architecture table: "" gives "", amd64 gives x86_64, 386 gives x86, anything else is unknown, each in both directions |
| Targets.CcOs | project.go:247-258 | the OS table: "" gives "", linux gives unknown-linux-gnu, windows gives w64-mingw32, anything else is unknown, each in both directions |
| TargetProps.ParseFormat | project.go:180-199 | the canonical text of a target parses back to that target, so parsing inverts formatting |
| TargetProps.ParseGroup | project.go:180-199 | any descriptor with a group of words, in any order and with repeats, parses to its OS and architecture, cgo exactly when `cgo` is among the words, and the other words in order; text after the group is ignored |
| TargetProps.ParseBare | project.go:180-199 | a descriptor without a group parses to cgo off and the tag list `[""]`; any text after the second word that starts neither a word nor a group is ignored |
| TargetProps.CgoAmongTags | project.go:180-199 | `linux:amd64(a,cgo,b)` parses to cgo on with the tags `a` and `b` |
| TargetProps.CgoTwice | project.go:180-199 | `linux:amd64(cgo,cgo)` parses to cgo on with no tags |
| TargetProps.LongArchBare | project.go:180-199 | `linux:amd64xyz!` parses to the architecture `amd64xyz`, cgo off and the tag list `[""]` |
| TargetProps.ParseAfterJunk | project.go:180 | leading characters that are not word characters are skipped by the leftmost match |
| TargetProps.SkipJunk | project.go:180 | the leftmost search passes over a prefix of non-word characters |
| TargetProps.NoColonInvalid | project.go:180-184 | a descriptor without a colon is rejected with "Invalid target " and its quoted text |
| TargetProps.NoColonNoMatch | project.go:290 | the pattern needs a colon: without one there is no match anywhere |
| TargetProps.MatchFormat | project.go:290 | the pattern matches a target's canonical text after any prefix, giving back its groups |
| TargetProps.TargetOfFormat | project.go:186-197 | building a target from its own groups gives back the target, with `cgo` set aside |
| TargetProps.DropTagNone | project.go:191-197 | without a `cgo` tag the tag list is kept as it is |
| TargetProps.DropTagSnoc | project.go:191-197 | a tag read last is dropped when it is `cgo` and otherwise kept as the last tag |
| TargetProps.DropTagAppend | project.go:191-197 | removing `cgo` from two lists joined together removes it from each, so the kept tags stay in their order |
| TargetProps.DropTagSingle | project.go:191-197 | a single tag is dropped when it is `cgo` and kept otherwise |
| TargetProps.DropMiddle | project.go:191-197 | removing the middle one of three tags keeps the outer two in order |
| TargetProps.ParseFormats | project.go:179-200 | a list of canonical targets, written as descriptors, parses back to the list |
| TargetProps.ParseConfigFormat | project.go:175-201 | a space-separated setting of canonical descriptors parses back to its targets |
| TargetProps.ParseTokensFirstError | project.go:179-184 | the first invalid descriptor decides the error, whatever follows it |
| TargetProps.ParseTokensOk | project.go:179-200 | a successful parse gives, position by position, the target of each descriptor |
| TargetProps.ParseTokensAllOk | project.go:179-200 | conversely, when every descriptor parses, the list parses to their targets in order |
| TargetProps.ParseTokensErr | project.go:179-184 | a failed parse names some descriptor that does not match |
| TargetProps.BareDescriptorName | project.go:206-218 | `os:arch` parses to the tag list `[""]` and its output name ends in "-", then ".exe" for windows |
| TargetProps.OutputNameDot | project.go:206-218 | an output name starts with the project name, and after it has a dot exactly when the OS is windows |
| TargetProps.EnvGroups | project.go:222-265 | the environment additions are GOOS and GOARCH when set, then CGO_ENABLED=1 with the compiler entry, or CGO_ENABLED=0 |
| TargetProps.EnvGoosGoarch | project.go:226-231 | a GOOS entry exactly when the OS is set, a GOARCH entry exactly when the architecture is set |
| TargetProps.CgoNoGo | project.go:232-265 | the cgo entries never set GOOS or GOARCH |
| TargetProps.EnvCgo | project.go:232-265 | CGO_ENABLED=1 exactly for cgo targets and CGO_ENABLED=0 exactly for the others |
| TargetProps.EnvCc | project.go:260-262 | a CC entry exactly for cgo targets whose architecture and OS are both known and set |
| TargetProps.CcVarKnown | project.go:235-262 | the table yields a compiler entry exactly when the architecture is amd64 or 386 and the OS is linux or windows |
| TargetProps.CgoCc | project.go:232-262 | the cgo entries hold a CC entry exactly for cgo targets that the table knows |
| TargetProps.EnvCcValue | project.go:260-262 | each of the four known pairs gets its compiler: x86_64 or x86, then unknown-linux-gnu or w64-mingw32, then -gcc |
| TargetProps.CcVarValue | project.go:235-262 | the same four compiler entries on their own |
| TargetProps.PlatformErrorCases | project.go:235-258 | no error unless a cgo target has an unknown OS or architecture; an unknown OS wins over an unknown architecture |
| Targets.CcVar | project.go:260-262 | at most one compiler entry, and only for amd64 or 386 on linux or windows |
| Targets.EnvOverrides | project.go:226-265 | one to four entries are appended, the last being CGO_ENABLED=0 for a target without cgo |
| Targets.PlatformError | project.go:235-258 | a platform error arises only for a cgo target whose OS or architecture the table does not know |
| Targets.OutputName | project.go:206-218 | an output name starts with the project name and ends in ".exe" for windows |
| Projects.LoopTerminal | project.go:203-284 | from a terminal status the target loop ends in a terminal status |
| Projects.PipelineTerminal | project.go:129-287 | the goroutine always stores Finished or Failed |
| Projects.Step | project.go:205-283 | one turn ends Finished exactly when its `go build` succeeded, and Failed otherwise |
| Projects.Loop | project.go:203-284 | a loop over at least one target ends Finished or Failed |
| Projects.Finish | project.go:133-142 | the finaliser keeps the commands; it gives Finished exactly when there was no error and the body finished; an error becomes the whole log; it never adds files, and after Failed nothing is left under the files directory |
| Projects.Pipeline | project.go:129-287 | the first command of any run is the checkout; a failed build leaves nothing under its files directory |
| Projects.Stages | project.go:144-159 | the body never removes files; it runs a command only after both directories are on disk, and the first command is the checkout |
| Projects.Checkout | project.go:161-201 | once the directories exist, the checkout is always the first command run |
| Projects.TargetStage | project.go:203-286 | the three git setup commands come first, the disk only gains artifacts, and a loop over at least one target ends Finished or Failed |
| Projects.OutputFile | project.go:206-218 | the name-building statements compute `OutputName` |
| Projects.CgoEnv | project.go:232-265 | the cgo block gives CGO_ENABLED=1 followed by the table's compiler entry for cgo targets and CGO_ENABLED=0 for the others, with the table's platform error |
| Projects.TargetEnv | project.go:220-265 | the environment statements compute the inherited environment plus `EnvOverrides`, and the cgo table's error |
| Projects.RunTargets | project.go:203-284 | the target loop computes `Loop` over the targets' attempts |
| Projects.BuildOne | project.go:205-283 | one turn of the loop computes `Step` on that target's attempt |
| Projects.Project.constructor | project.go:30-33 | a project starts with no builds |
| Projects.Project.Open | project.go:24-45 | a missing clone fails with the stat error; otherwise the result is the origin URL or the git error, and a new project has an empty build cache |
| Projects.Project.Ref | project.go:72-85 | the probe with `--short=len(ref)` decides `hash` and whether to fetch; the final `rev-parse --short` decides the id or the error |
| Projects.Project.GetBuild | project.go:99-122 | a cached build is returned unchanged; otherwise the build directory is made and the description read, and only a full success caches a fresh NotStarted build at that directory |
| Projects.Build.constructor | project.go:114-118 | a new build is NotStarted with an empty log and its code and files directories under its path |
| Projects.Build.StartBuild | project.go:124-129 | only the call that finds NotStarted runs the pipeline, whose outcome becomes the status, log and disk; the status never moves back and the pipeline runs at most once |
| Projects.Build.Run | project.go:129-287 | the goroutine body with its finaliser computes `Pipeline` |
| Projects.Build.Prepare | project.go:144-159 | the two `os.Mkdir` calls and the recovery decision compute `Stages` |
| Projects.Build.CheckoutAndBuild | project.go:161-201 | checkout, reset, configuration and parsing compute `Checkout` |
| Projects.Build.BuildTargets | project.go:203-286 | the loop and the log store compute `TargetStage` |
| Projects.Build.Log | project.go:302-309 | the log is visible only once the status is Finished or Failed |
| Projects.Build.Status | project.go:298-300 | an atomic read of the status field, with no contract of its own; `Build.StartBuild` keeps the field from moving back |
| Projects.Build.Summary | project.go:311-320 | the summary carries the project name and URL, the commit id, the description, the status and the visible log |
| PipelineProps.FirstFailure | project.go:270-283 | reference definition: all runs before it succeeded, the one at it did not |
| PipelineProps.RunCount | project.go:205-283 | the number of `go build` runs is at most the number of targets and at least one |
| PipelineProps.LastErrorSome | project.go:244-257 | the loop's error is set exactly when it was set before or some target had an unknown platform |
| PipelineProps.AttemptsAt | project.go:220-268 | each target's attempt is its `go build` command, its run, its log entry, its artifact path and its platform error |
| PipelineProps.LoopStatus | project.go:270-283 | the loop ends Finished exactly when every run succeeded |
| PipelineProps.LoopRan | project.go:205-283 | the loop runs the targets' commands in order up to and including the first failed one |
| PipelineProps.LoopLog | project.go:267-283 | the log is the concatenation of the entries of the targets that ran |
| PipelineProps.LoopBuilt | project.go:220-273 | the artifacts are those of the targets before the first failure |
| PipelineProps.LoopErr | project.go:235-258 | the loop's error is the last platform error among the targets that ran |
| PipelineProps.ReachesTargets | project.go:144-201 | with both directories new and the setting parsed, the body reaches the target loop with both directories on disk, and there is at least one target |
| PipelineProps.TargetOutcome | project.go:129-287 | after a target loop: the commands run, the status (Finished exactly when every run succeeded and no platform error was met), the log (the error text, else the entries) and the disk (the files directory removed unless Finished) |
| PipelineProps.BuildResult | project.go:129-287 | with both directories new and the setting parsed, the pipeline is the finaliser applied to the target loop |
| PipelineProps.FinishedArtifacts | project.go:203-286 | a Finished loop built every target, met no platform error, and left every artifact on disk |
| PipelineProps.FinishedHasArtifacts | project.go:203-286 | a Finished pipeline ran every `go build` successfully and left every output file on disk |
| PipelineProps.FailureLog | project.go:267-282 | on a failed run the log ends with its command line, then its output and exit message, or nothing more when it could not start |
| PipelineProps.FailureLogTail | project.go:267-286 | the same for the whole pipeline, with the failed attempt being that target's `go build` |
| PipelineProps.PlatformErrorLog | project.go:133-141 | an unknown platform among the targets that ran fails the build, makes the error text the whole log, and removes the files directory |
| PipelineProps.PlatformErrorFails | project.go:133-141 | the same for the whole pipeline |
| PipelineProps.OnePlatformError | project.go:232-258 | a single cgo target on an unknown platform fails with exactly that platform error as its log |
| PipelineProps.MissingConfigFails | project.go:170-173 | a failing `git config goci.targets` fails the build with the git error after the three setup commands, removing the files directory |
| PipelineProps.CheckoutFails | project.go:161-164 | a failed checkout fails the build with its error after running only the checkout |
| PipelineProps.RecoveryCodeExisted | project.go:144-152 | an existing code directory skips every command, keeps the log, and gives Finished exactly when the files directory existed |
| PipelineProps.RecoveryFilesOnly | project.go:153-159 | a new code directory with an existing files directory fails with "mkdir … file exists" and runs nothing |
| PipelineProps.TerminalDisk | project.go:133-142 | the final status is terminal; after Failed nothing is left under the files directory, after Finished the files directory exists |
| Serve.SplitFirst | serve.go:27-34 | after one leading slash is dropped: no slash left gives all of it and ""; otherwise a slash-free first segment which, with a slash and the rest, rebuilds the route |
| Serve.SplitFirstDoubleSlash | serve.go:28 | only one leading slash is dropped, so "//x" has an empty first segment |
| Serve.SplitFirstJoin | serve.go:27-34 | splitting inverts joining a slash-free segment with a rest |
| Serve.ParseRoute | serve.go:42-44 | project, reference and action never contain a slash |
| Serve.ParseRouteJoin | serve.go:42-44 | `/project/ref/action/rest` parses back into its four parts when reference and action are not empty |
| Serve.HomeLocation | serve.go:70 | the redirect for a bare project name is `/project/master` |
| Serve.ServeHTTP | serve.go:41-100 | the first call, if any, opens the project; a request handed to an action has a known action, keeps its action and rest, and its last call starts the build it is handed to |
| Serve.HandleWebhook | serve.go:102-134 | at most three calls, the first resolving the `after` reference, and a build is started only as the last call |
| Serve.StatusAction | serve.go:136-143 | the status page answers only the build's own route, with its summary |
| Serve.FilesAction | serve.go:145-170 | files are not found exactly until the build has Finished; then the bare route lists the files directory and any other route names a file below it |
| Serve.GuardsBeforeOpen | serve.go:46-62 | an unknown action or an empty or hidden project name is not found and opens nothing; no call at all happens only then |
| Serve.DashRefNotFound | serve.go:73-76 | a reference starting with "-" is not found and reaches neither `Ref` nor `GetBuild` |
| Serve.EmptyRefRedirects | serve.go:64-72 | a bare project name redirects with 301 to its master branch, running the webhook exactly for POST |
| Serve.CanonicalRedirect | serve.go:84-89 | a temporary redirect to the canonical id happens exactly when the reference was a commit id other than that id, and the build is then not looked up |
| Serve.DispatchStarts | serve.go:91-99 | a request reaches an action exactly when every guard passes, and then only after looking up and starting the build of the resolved id; no other path starts a build except through the webhook |
| Serve.WebhookStarts | serve.go:122-133 | the webhook starts a build exactly when its reference is usable, resolves, and has a build, and then starts the resolved id's build |
| Serve.CI.constructor | serve.go:23-25 | a new service has no open projects |
| Serve.CI.Project | serve.go:172-184 | a cached project is returned as it is; otherwise `root/name.git` is opened and cached only when that succeeds |

## Left out

- Concurrency: the goroutine, the mutexes and the atomic load and store. `StartBuild` runs the pipeline to completion right after the compare-and-set. Requests that see InProgress while a build is running are therefore not modelled.
- What git and `go build` do: a `World` value answers each command line with its outcome. The process environment (`os.Environ`) and the resolved path of `go` are fields of it too. So are the `os.Mkdir` failures other than "exists".
- The interleaving of `go build`'s standard output and error in the log: one run's output is a single string.
- `filepath.Join` and `path.Join` are modelled as joining with "/" without cleaning.
- Projects.Project.Open: does not model `filepath.Abs`; the path is used as given, so its error case is absent.
- FileSys.MkdirAll: a fault is given for the whole path, not for each ancestor separately.
- Targets.Quote: the control and non-ASCII escapes of `strconv.Quote` are modelled for single code points only. Unicode printability (`strconv.IsPrint`) is approximated as everything from U+00A0 up.
- Serve.FilesAction: does not model `path.Clean` of the route or the errors of opening and listing the files directory. It also does not model the guarding of `..` inside `http.ServeFile`, which serves no path outside the directory.
- `ServeHTTP` and `HandleWebhook` are modelled as pure decisions over the answers of the calls they make: whether `CI.Project` succeeded, what `Project.Ref` answered, and whether `Project.GetBuild` succeeded. The calls themselves are modelled as the methods above.
- The webhook's media-type parsing, JSON and form decoding: one optional `after` value stands for their result.
- The HTTP plumbing: the response writer, the query part kept in redirects, JSON encoding of summaries and file lists, and `http.ServeFile`.
- `BuildStatus.String` and `MarshalText` (generated text), logging with `log.Print`, and `main` (flags, syslog, listening).
