# gooze-cli scaffolder, modelled in Dafny

gooze-cli sets up new Go projects for the gooze-starter framework. It has two
copies of the same scaffolder, both registered as the `init` command: the
starter copy `StartCmd` (internal/gooze-starter/start.go) and the `createCmd`
copy (cmd/create.go). This project models, and proves properties of,
the part that decides what gets created:

- **the prompts' validators**: `FirstIllegalChar`, `isValidDirName`,
  `containsChinese`, `containsSpecialChar` and `InArray` in
  pkg/util/helper.go and their twins in cmd/helper.go. These feed the
  project-name check and the sub-service-name check, and the answers are then
  turned into a project name, a mode (single or multi service) and a list of
  sub-service directories. Modules `Unicode`, `NameCheck` and `Collect`.
- **the file-system phase**: the project directory, the five placeholder
  directories with their `.gitkeep`, and the walk over the embedded
  templates. The walk's callback switches on each entry's base name. It
  copies or renders files, loops over the sub-services, and hands each
  env file its own port, counting up from 18168. This is the class
  `Materialize.ProjectTree`: its field `files` is the file system,
  which the methods update in place. Every method is proved against a
  function on values (`EntryPlan`, `RunFrom`, `WalkFrom`, `ScaffoldSpec`),
  and the properties are proved about those functions.
- **genMain**: the `main.go` entry point rendered from a fixed template,
  with an optional blank import of the bootstrap package. Module `MainGen`.
- **handlerMain and the toolchain phase**: `go mod init`, `go get`, then
  per entry point the stub `main.go`, `go mod tidy`, code generation, the
  final `main.go` and a quiet `go mod tidy`. This phase is modelled as the
  trace of steps it performs. Then comes the choice of which service to
  start and the `go run` command that starts it. Module `Toolchain`.

The two copies differ in three places, and the parameter
`Materialize.Variant` (`Starter` for `StartCmd`, `Create` for `createCmd`)
selects between them:

- the models placeholder is `models` or `pkg/models`;
- `createCmd` has no `rbac_model.conf` case;
- handlerMain's entry-point path has no `server` fallback in `createCmd`.

Notes on the code as written:

- The sub-service names are the pieces of the answer split on `-`, as
  typed. They are not trimmed, may be empty (`a--b`), and need not be
  distinct.
- A project name of white space only passes the validator. Trimming then
  makes it empty, and creating the project directory fails.
- A sub-service called `No` can never be started, because picking it reads
  as declining.
- In multi mode an empty sub-service name gets its entry point written to
  `cmd/main.go`, while `StartCmd` generates code from `cmd/server/main.go`.

## Model

| member | source | states |
|---|---|---|
| Unicode.IsSpace | internal/gooze-starter/start.go:124 | the code points unicode.IsSpace accepts, which strings.TrimSpace cuts off |
| Unicode.TrimLeftSpace | internal/gooze-starter/start.go:124 | the longest end of the string that does not start with white space; everything cut is white space |
| Unicode.TrimRightSpace | internal/gooze-starter/start.go:124 | the longest start of the string that does not end with white space; everything cut is white space |
| Unicode.TrimSpace | internal/gooze-starter/start.go:124 | the trimmed name has no white space at either end and is no longer than the answer |
| Unicode.TrimSpaceIsSlice | internal/gooze-starter/start.go:124 | the trimmed name is a slice of the answer with only white space cut off on both sides |
| Unicode.TrimSpaceOfTrimmed | internal/gooze-starter/start.go:124 | a name without edge white space is left unchanged |
| Unicode.TrimSpaceIdempotent | internal/gooze-starter/start.go:124 | trimming twice is trimming once |
| Unicode.TrimSpaceIgnoresPadding | pkg/util/helper.go:54 | white space added at the ends of a string does not change what it trims to |
| Unicode.TrimSpaceOfBlank | internal/gooze-starter/start.go:124 | a string of white space only trims to "" |
| NameCheck.Legal | pkg/util/helper.go:56-69 | the switch's verdict on one code point: not Han, and an ASCII letter, digit, `-` or `_` |
| NameCheck.FirstIllegalIn | pkg/util/helper.go:55-71 | the result is "" iff every code point is Legal; otherwise it is the first code point that is not |
| NameCheck.FirstIllegalChar | pkg/util/helper.go:53-72 | "" iff every code point of the trimmed string is non-Han and in `[A-Za-z0-9_-]`; otherwise the first code point of the trimmed string that is not, all before it being legal |
| NameCheck.IsValidDirName | pkg/util/helper.go:74-93 | true iff every code point of the untrimmed string is non-Han and in `[A-Za-z0-9_-]` |
| NameCheck.ContainsChinese | pkg/util/helper.go:95-102 | true iff some code point is Han |
| NameCheck.ContainsSpecialChar | pkg/util/helper.go:104-111 | true iff some code point is neither a letter, a digit nor Han |
| NameCheck.InArray | pkg/util/helper.go:129-136 | true iff some element equals the value |
| NameCheck.LegalIsIdentChar | pkg/util/helper.go:56-69 | with the real Unicode tables, the switch accepts exactly the ASCII identifier characters |
| NameCheck.FirstIllegalCharEmptyIff | pkg/util/helper.go:53-72 | a name passes iff its trimmed form consists of ASCII letters, digits, `-` and `_` |
| NameCheck.IdentifierPasses | pkg/util/helper.go:53-72 | a string of identifier characters passes |
| NameCheck.EdgeSpaceIgnored | pkg/util/helper.go:54 | white space around a name never changes the verdict; "" passes |
| NameCheck.ValidDirNameAgrees | pkg/util/helper.go:74-93 | for a name without edge white space, isValidDirName agrees with FirstIllegalChar |
| NameCheck.ValidDirNameDoesNotTrim | pkg/util/helper.go:74-93 | " a" is rejected by isValidDirName but passes FirstIllegalChar |
| NameCheck.ChineseIsInvalid | pkg/util/helper.go:95-102 | a name containing a Han code point is never a valid directory name |
| NameCheck.SpecialCharIncludesSeparators | pkg/util/helper.go:104-111 | any name containing `-`, `_` or white space contains a special character |
| NameCheck.SpecialCharIsNotInvalidity | pkg/util/helper.go:104-111 | "a-b" is a valid directory name that still contains a special character |
| NameCheck.HanNameRejected | cmd/helper.go:70-89 | the first illegal code point of "报表" is "报" |
| Paths.Join | internal/gooze-starter/start.go:162 | the joined path is empty iff every element is empty |
| Paths.JoinNonEmpty | internal/gooze-starter/start.go:162 | filepath.Join is the non-empty elements joined by "/" |
| Paths.JoinAllNonEmpty | internal/gooze-starter/start.go:225 | non-empty elements, such as those of `build/scripts/gen_<d>.sh` or `api/<d>/user.api`, are joined with "/" between each two |
| Paths.JoinPair | internal/gooze-starter/start.go:192 | joining two elements drops an empty one and otherwise puts "/" between them |
| Paths.JoinTriple | internal/gooze-starter/start.go:290 | joining three elements with a possibly empty middle one |
| Paths.Base | internal/gooze-starter/start.go:157 | with trailing slashes dropped, the base name is the slash-free end of the path that is all of it or follows a "/"; "." for "" and "/" for slashes only |
| Paths.DropTrailingSlashes | internal/gooze-starter/start.go:157 | a prefix of the path, followed by slashes only, that does not end in "/" |
| Paths.LastElement | internal/gooze-starter/start.go:157 | the slash-free end of the path that is all of it or follows a "/", non-empty when the path does not end in "/" |
| Paths.LastElementUnique | internal/gooze-starter/start.go:157 | any slash-free end of a path that is all of it or follows a "/" is the last element |
| Paths.BaseOfJoin | internal/gooze-starter/start.go:157-158 | the base name of `dir` joined with a slash-free name is that name |
| Paths.Split | internal/gooze-starter/start.go:120 | at least one piece, and no piece contains the separator |
| Paths.JoinSplit | internal/gooze-starter/start.go:120 | joining the pieces with "-" gives the answer back |
| Paths.SplitJoin | internal/gooze-starter/start.go:120 | splitting a join of separator-free pieces gives the pieces back |
| Paths.SplitKeepsEmptyPieces | internal/gooze-starter/start.go:120 | "a--b" splits into "a", "" and "b" |
| Paths.Decimal | internal/gooze-starter/start.go:195 | `%d` of a natural number is a non-empty string of decimal digits without a leading zero, two or more exactly from 10 on |
| Paths.DecimalValue | internal/gooze-starter/start.go:195 | the digits `%d` prints, read from the left, give the number back |
| Paths.DecimalInjective | internal/gooze-starter/start.go:195 | distinct ports print differently |
| Collect.NameRejection | internal/gooze-starter/start.go:58-74 | the name is accepted iff it is non-empty, passes FirstIllegalChar and names no existing path; an illegal-character rejection carries that character |
| Collect.FirstBadPiece | internal/gooze-starter/start.go:106-110 | "" iff every piece passes; otherwise the message of the first piece that fails, all before it passing |
| Collect.SubDirRejection | internal/gooze-starter/start.go:96-115 | the answer is accepted iff it is non-empty and every `-` piece passes FirstIllegalChar; an illegal-character rejection carries the message of the first failing piece |
| Collect.CollectAnswers | internal/gooze-starter/start.go:55-124 | interrupted prompts abort; otherwise the mode is "true" chosen, the name is the trimmed answer, and the directories are the split answer in multi mode and none otherwise |
| Collect.NameAcceptedIff | internal/gooze-starter/start.go:58-74 | accepted iff non-empty, absent, and the trimmed name is an identifier |
| Collect.SubDirFormatErrorUnreachable | internal/gooze-starter/start.go:101-104 | the format error is never reported |
| Collect.EmptyPieceAccepted | internal/gooze-starter/start.go:96-120 | "a--b" is accepted and yields an empty middle directory |
| Collect.CollectedSubDirs | internal/gooze-starter/start.go:96-120 | accepted sub-directories are at least one, free of "-", join back to the answer, and trim to identifiers |
| Collect.AcceptedAnswerPieces | internal/gooze-starter/start.go:96-115 | the `-` pieces of an accepted answer join back to it and each trims to an identifier |
| Collect.CollectedNameIsIdentifier | internal/gooze-starter/start.go:124 | the name used afterwards is the trimmed answer and consists of identifier characters |
| Collect.BlankNameAccepted | internal/gooze-starter/start.go:58-74 | " " passes the validator and yields the project name "" |
| Collect.UntrimmedExistenceCheck | internal/gooze-starter/start.go:68 | when "demo" exists, " demo" is accepted and the project name is "demo" |
| Collect.NameRejectionTrimmed | internal/gooze-starter/start.go:58-74 | the corrected validator accepts iff the trimmed name is non-empty, legal and absent |
| Collect.TrimmedCheckProtectsExisting | internal/gooze-starter/start.go:124 | with the corrected validator the project name is never empty and never an existing path |
| MainGen.Execute | cmd/genmain.go:32-36 | text/template execution of text, `{{.F}}` and `{{if .F}}...{{end}}` against a string map or nil |
| MainGen.MainSource | cmd/genmain.go:10-36 | mainContentTemplate executed with the server path in a map, or with nil when it is empty |
| MainGen.Lookup | cmd/genmain.go:32-36 | a non-empty value comes from a present key of non-nil data |
| MainGen.ExecuteTextIfText | cmd/genmain.go:10-22 | an `{{if}}` between two texts renders its body between them exactly when its field is non-empty |
| MainGen.MainSourceShape | cmd/genmain.go:10-22 | the render is the fixed head, the import slot and the fixed tail |
| MainGen.StubHasNoBlankImport | cmd/genmain.go:34-36 | rendered with nil data, the text contains no `_` |
| MainGen.FinalHasBlankImport | cmd/genmain.go:32-33 | with a server path the import block holds `_ "<serverPath>"` right after the head |
| MainGen.RendersDifferOnlyInSlot | cmd/genmain.go:10-22 | every render is the stub with the slot inserted after the head |
| MainGen.GenMain | cmd/genmain.go:24-49 | writes `<target>/main.go` with the rendered text iff execution and writing succeed; fails iff execution succeeded and writing or gofmt failed |
| MainGen.ExecFailureReportsSuccess | cmd/genmain.go:37-39 | a failed execution is reported as success with nothing written |
| MainGen.GenMainChecked | cmd/genmain.go:37-39 | the corrected genMain fails iff some step failed |
| MainGen.CheckedSuccessMeansWritten | cmd/genmain.go:41-48 | with the correction, success means `<target>/main.go` was written and formatted |
| Materialize.EnvContext | internal/gooze-starter/start.go:193-197 | the env render's map: the name, `:<port>` and the router prefix api/v1 |
| Materialize.StartContext | internal/gooze-starter/start.go:250-255 | the start script's map: Name, MainPath, ConfigPath and EnvPath |
| Materialize.GenContext | internal/gooze-starter/start.go:226-233 | the gen script's map: the start script's four entries plus SrcPath ./api and OutputPath ./internal |
| Materialize.SubMainPath | internal/gooze-starter/start.go:228 | `./cmd/<d>/main.go` |
| Materialize.SubConfigPath | internal/gooze-starter/start.go:229 | `./configs/<d>.yaml` |
| Materialize.SubEnvPath | internal/gooze-starter/start.go:230 | `.env.<d>` |
| Materialize.UserApiPlan | internal/gooze-starter/start.go:159-172 | one copy per sub-service under `api/<d>/`, or one under `api/`; every failure is fatal |
| Materialize.ConfigPlan | internal/gooze-starter/start.go:173-187 | `configs/<d>.yaml` per sub-service, or `configs/config.yaml`; every failure is fatal |
| Materialize.EnvPlan | internal/gooze-starter/start.go:188-207 | one `.env.<d>` render per sub-service, or one `.env`; no failure is fatal |
| Materialize.GenScriptPlan | internal/gooze-starter/start.go:222-245 | one `gen_<d>.sh` render per sub-service, or `gen_server.sh`; no failure is fatal |
| Materialize.StartScriptPlan | internal/gooze-starter/start.go:246-265 | one `start_<d>.sh` render per sub-service, or `start_server.sh`; no failure is fatal |
| Materialize.CopyTarget | internal/gooze-starter/start.go:208-221 | the one destination of gitignore, rbac_model.conf (starter only), README1.md (single mode), README2.md (multi mode) and gen.sh |
| Materialize.CasePlan | internal/gooze-starter/start.go:158-266 | the switch on the base name: the writes of each case in order, none for an unlisted name |
| Materialize.EntryPlan | internal/gooze-starter/start.go:148-158 | a directory writes nothing; a file is handled by the case of its base name |
| Materialize.FatalOnlyForApiAndConfig | internal/gooze-starter/start.go:158-266 | only the user.api and config.yaml cases stop the run on a failed write |
| Materialize.Step | internal/gooze-starter/start.go:163-171 | one write: a failed fatal write stops, another failed write sets `err`, a success stores the content and clears `err` |
| Materialize.RunFrom | internal/gooze-starter/start.go:191-199 | a case's writes one after the other, with the `err` of the last one |
| Materialize.Visit | internal/gooze-starter/start.go:147-268 | one callback: its writes, then the walk stops on a fatal write or a returned error |
| Materialize.WalkFrom | internal/gooze-starter/start.go:147-273 | fs.WalkDir: the entries in order, stopping at the first callback that fails |
| Materialize.EmptyDirs | internal/gooze-starter/start.go:130-145 | the five placeholder directories in creation order, `models` or `pkg/models` by variant |
| Materialize.MakeDirs | internal/gooze-starter/start.go:130-145 | createEmptyDir on each directory in turn, stopping at the first failure |
| Materialize.ScaffoldSpec | internal/gooze-starter/start.go:123-273 | the project directory (failing for ""), the placeholders, then the walk |
| Materialize.FatalIsFinal | internal/gooze-starter/start.go:163-165 | after a fatal write failure nothing more happens |
| Materialize.HaltIsFinal | internal/gooze-starter/start.go:147-150 | after the callback returns an error the walk visits nothing more |
| Materialize.DispatchByBaseName | internal/gooze-starter/start.go:157-158 | two file entries with the same base name and bytes are handled alike |
| Materialize.UnlistedEntryIsSkipped | internal/gooze-starter/start.go:147-158 | a directory or an unlisted base name writes nothing and does not stop the walk |
| Materialize.RbacOnlyInStarter | cmd/create.go:207-216 | `createCmd` skips rbac_model.conf; `StartCmd` copies it to configs/rbac_model.conf |
| Materialize.RbacCase | internal/gooze-starter/start.go:210-211 | the rbac case writes `configs/rbac_model.conf` in the starter and is absent from `createCmd` |
| Materialize.ExactlyOneReadme | internal/gooze-starter/start.go:212-219 | of README1.md and README2.md exactly one is copied to README.md, chosen by the mode |
| Materialize.ReadmeCases | internal/gooze-starter/start.go:212-219 | the two README cases together write README.md once, from the file the mode picks |
| Materialize.EnvPortsDistinct | internal/gooze-starter/start.go:189-199 | the k-th sub-service's env file gets port `:18168+k`, and distinct sub-services get distinct ports |
| Materialize.EnvPlanAt | internal/gooze-starter/start.go:191-197 | the k-th env render in multi mode writes `<p>/.env.<d>` with name `<p>-<d>`, port 18168+k and the router prefix |
| Materialize.EnvPortAt | internal/gooze-starter/start.go:189-199 | the k-th env render in multi mode carries the port text `:<18168+k>` |
| Materialize.FailureFreeRun | internal/gooze-starter/start.go:188-207 | without failures every write is stored in order and the run is not fatal |
| Materialize.OverlayLastWrite | internal/gooze-starter/start.go:191-199 | a path holds what its last write stored |
| Materialize.EnvFileOfService | internal/gooze-starter/start.go:188-199 | with distinct names and no failures, `.env.<d>` of the k-th sub-service is rendered with name `<project>-<d>`, port `:18168+k` and prefix api/v1 |
| Materialize.EnvFileSingle | internal/gooze-starter/start.go:200-207 | in single mode `.env` is rendered once with the project name and port 18168 |
| Materialize.FailureFreeVisit | internal/gooze-starter/start.go:147-269 | a visit without failures stores the entry's writes and the walk keeps running |
| Materialize.FailureFreeWalk | internal/gooze-starter/start.go:147-269 | without failures the walk visits every entry and stores every planned write in walk order |
| Materialize.EarlierRenderErrorLost | internal/gooze-starter/start.go:224-234 | a failed render followed by a successful one leaves no error |
| Materialize.LastRenderErrorWins | internal/gooze-starter/start.go:268 | with non-fatal writes only, the callback's error is whether the last write failed |
| Materialize.StickyRunReportsAnyFailure | internal/gooze-starter/start.go:268 | the corrected callback reports an error iff some write failed, writing the same files |
| Materialize.PlaceholdersFailureFree | internal/gooze-starter/start.go:131-145 | without failures every placeholder directory gets an empty `.gitkeep` |
| Materialize.ModelsDirByVariant | cmd/create.go:139 | the models placeholder is `models` in `StartCmd` and `pkg/models` in `createCmd`; the other four agree |
| Materialize.BlankNameStopsAtRoot | internal/gooze-starter/start.go:124-127 | a blank name passes validation and the run stops at the project directory with nothing written |
| Materialize.ProjectTree.constructor | internal/gooze-starter/start.go:125 | the tree starts as the existing file system |
| Materialize.ProjectTree.WriteFile | internal/gooze-starter/start.go:334-343 | succeeds iff the path can be created, and then stores the bytes there, nothing else changes |
| Materialize.ProjectTree.RenderTemplateFile | internal/gooze-starter/start.go:404-422 | succeeds iff the destination can be created, and then stores the rendered template there |
| Materialize.ProjectTree.CreateEmptyDir | internal/gooze-starter/start.go:345-352 | succeeds iff the directory and its `.gitkeep` can be created, and then adds the empty `.gitkeep` |
| Materialize.ProjectTree.VisitUserApi | internal/gooze-starter/start.go:159-172 | the loop performs UserApiPlan, stopping fatally at the first failed write |
| Materialize.ProjectTree.VisitConfig | internal/gooze-starter/start.go:173-187 | the loop performs ConfigPlan, stopping fatally at the first failed write |
| Materialize.ProjectTree.VisitEnv | internal/gooze-starter/start.go:188-207 | the loop performs EnvPlan, keeping `port == 18168 + i` |
| Materialize.ProjectTree.VisitGenScript | internal/gooze-starter/start.go:222-245 | the loop performs GenScriptPlan |
| Materialize.ProjectTree.VisitStartScript | internal/gooze-starter/start.go:246-265 | the loop performs StartScriptPlan |
| Materialize.ProjectTree.VisitEntry | internal/gooze-starter/start.go:147-268 | one callback performs EntryPlan of the entry |
| Materialize.ProjectTree.MaterializeTemplates | internal/gooze-starter/start.go:147-273 | the walk ends in the state WalkFrom gives, stopping at a fatal write or a callback error |
| Materialize.MakeDirsStep | internal/gooze-starter/start.go:130-145 | one createEmptyDir either fails and stops with that directory, or stores its `.gitkeep` and goes on with the rest |
| Materialize.ProjectTree.CreatePlaceholders | internal/gooze-starter/start.go:130-145 | the five createEmptyDir calls end as MakeDirs says, stopping at the first failure |
| Materialize.ProjectTree.Scaffold | internal/gooze-starter/start.go:123-273 | the file-system phase ends as ScaffoldSpec says |
| Toolchain.ConfigPath | internal/gooze-starter/start.go:365-371 | `configs/<m>.yaml`, or `configs/config.yaml` for the empty module |
| Toolchain.EnvName | internal/gooze-starter/start.go:365-370 | `.env.<m>`, or `.env` for the empty module |
| Toolchain.MainPath | internal/gooze-starter/start.go:372-376 | `cmd/<m>/main.go`, with `server` for the empty module in the starter and none in `createCmd` |
| Toolchain.ServerPath | internal/gooze-starter/start.go:390-393 | `<p>/internal/<m>/bootstrap`, or `<p>/internal/bootstrap` for the empty module |
| Toolchain.GenArgs | internal/gooze-starter/start.go:378-385 | the code generator's `go run` arguments |
| Toolchain.HandlerMain | internal/gooze-starter/start.go:354-402 | five steps: the stub main.go, tidy in the target, code generation in the project, the final main.go importing the bootstrap, a quiet tidy |
| Toolchain.HandlerDefaultPaths | internal/gooze-starter/start.go:365-376 | the empty module uses configs/config.yaml, .env, cmd/server/main.go (cmd/main.go in `createCmd`) and `<p>/internal/bootstrap` |
| Toolchain.HandlerModulePaths | internal/gooze-starter/start.go:365-393 | module m uses configs/m.yaml, .env.m, cmd/m/main.go and `<p>/internal/m/bootstrap` |
| Toolchain.FinalEntryPointWins | internal/gooze-starter/start.go:355-396 | of the two writes of `<target>/main.go` the second wins, and the stub has no blank import |
| Toolchain.FinalEntryPointImport | internal/gooze-starter/start.go:390-394 | the final entry point imports the bootstrap package as a blank import |
| Toolchain.CreateGenMissesEntryPoint | cmd/create.go:383-386 | `createCmd` in single mode writes cmd/server/main.go but generates from ./cmd/main.go |
| Toolchain.ServerEntryPoint | internal/gooze-starter/start.go:291-293 | the single-service entry point is `<p>/cmd/server/main.go` |
| Paths.JoinRegroup | internal/gooze-starter/start.go:372-379 | joining p with a/b/c is the same path as joining p/a/b with c |
| Toolchain.StarterGenRunsEntryPoint | internal/gooze-starter/start.go:372-379 | in `StartCmd`, code generation runs the entry point handlerMain wrote |
| Toolchain.EmptyServiceMissesEntryPoint | internal/gooze-starter/start.go:288-293 | an empty sub-service name writes cmd/main.go but generates from cmd/server/main.go |
| Toolchain.TargetDir | internal/gooze-starter/start.go:288-294 | the target handlerMain is given: `<p>/cmd/<m>`, or `<p>/cmd/server` |
| Toolchain.Prelude | internal/gooze-starter/start.go:277-286 | `go mod init <p>` and `go get -u github.com/soryetong/gooze-starter`, quiet, in the project |
| Toolchain.TargetSteps | internal/gooze-starter/start.go:288-294 | the handlerMain steps of the targets, one after the other |
| Toolchain.ToolchainSteps | internal/gooze-starter/start.go:277-294 | the prelude, then the steps of every target |
| Toolchain.Targets | internal/gooze-starter/start.go:288-294 | one target per sub-service in multi mode, one otherwise |
| Toolchain.TargetStepsLength | internal/gooze-starter/start.go:288-294 | every target contributes five steps |
| Toolchain.TargetStepsAt | internal/gooze-starter/start.go:288-294 | the k-th target's steps sit at places 5k to 5k+4 |
| Toolchain.ToolchainLayout | internal/gooze-starter/start.go:277-294 | mod init and go get come first, then each target's handlerMain steps in input order |
| Toolchain.RunTargets | internal/gooze-starter/start.go:288-294 | the loop records the handlerMain steps of every target in order |
| Toolchain.RunToolchain | internal/gooze-starter/start.go:277-294 | the toolchain phase records exactly ToolchainSteps |
| Toolchain.StartSelection | internal/gooze-starter/start.go:296-319 | the target, env file and config file the last prompt decides |
| Toolchain.StartCommand | internal/gooze-starter/start.go:321-330 | `go run ./cmd/<t>/main.go` with the config and env flags, when a target other than "" and "No" was chosen |
| Toolchain.StartRunsIff | internal/gooze-starter/start.go:296-321 | a service starts iff multi mode picked a non-empty name other than "No", or single mode confirmed |
| Toolchain.StartFlagsMulti | internal/gooze-starter/start.go:299-330 | sub-service t runs ./cmd/t/main.go with the config and env files the walk wrote for it |
| Toolchain.StartFlagsSingle | internal/gooze-starter/start.go:308-330 | the single service runs ./cmd/server/main.go with configs/config.yaml and .env, the files the walk wrote |
| Toolchain.ServiceNamedNoNeverStarts | internal/gooze-starter/start.go:304 | a sub-service called "No" is never started |

## Left out

- Terminal prompts, logging and the Ctrl-C handling are not modelled. Each prompt's answer is an input (`Collect.Prompt`), and an interrupt aborts.
- Go strings are UTF-8 bytes, and `for _, r := range s` (pkg/util/helper.go:55, 75, 96, 105) decodes them, reading an invalid byte as U+FFFD. The model takes a string to be a sequence of code points already, so invalid UTF-8 input is not modelled.
- The Unicode tables `unicode.Han`, `IsLetter` and `IsDigit` are a parameter. `Unicode.Sound` states the facts about them that are used.
- The file system is a map from path to content, and which creations fail is an input. Directories are not recorded apart from `.gitkeep`. `os.Stat` is a predicate parameter.
- `os.MkdirAll` of intermediate directories and its failures are not modelled, except for the project directory (a name in `fails`) and the five placeholder directories.
- Materialize.ProjectTree.RenderTemplateFile: the text/template engine is not modelled. A rendered file is recorded as template name, source and context. A render whose execution fails after the file was created (leaving a partial file) is treated like a failed creation, leaving the map unchanged.
- Reading the embedded templates and the walk's own errors (`ReadFile`, the `err` passed to the callback) are not modelled. The catalog is a list of entries in walk order.
- `log.Fatalf` ends the process. Here it ends the method with a `Halt` value.
- Toolchain.RunToolchain: the `go` commands are not executed. The model records the trace that runs when none fails, and a failing command would end the run with `log.Fatalf`.
- Toolchain.HandlerMain: the genMain calls are recorded as steps. Their faults (`GenMainFaults`) are modelled in `MainGen.GenMain` but not threaded into the trace.
- gofmt's reformatting is not modelled. `MainGen.MainSource` is the text before gofmt.
- `filepath.Join` does not clean `.` and `..` elements in this model. The scaffolder only joins validated names and fixed literals.
- The genMain called from internal/gooze-starter/start.go is not part of this model. It is taken to be the cmd/genmain.go one.
- Toolchain.RunTargets loops over the (target, module) pairs that `Toolchain.Targets` derives from the sub-services, rather than joining the target path inside the loop as the source does.
- The port in `EnvContext` is a natural number. Go's `int` cannot overflow for the handful of sub-services involved.

## Findings

| source | as written | input that shows it | evidently intended | confidence | as-written member | corrected member |
|---|---|---|---|---|---|---|
| internal/gooze-starter/start.go:68 | `os.Stat(name)` checks the answer as typed, but the project is created under `strings.TrimSpace(name)` (line 124) | answer " demo" while directory "demo" exists | check the trimmed name, which is the one that is created | high, not executed | Collect.UntrimmedExistenceCheck | Collect.TrimmedCheckProtectsExisting |
| cmd/create.go:383 | `mainPath` joins `moduleName` as it is, so single mode generates from `cmd/main.go` | single-service project "p": the entry point is p/cmd/server/main.go, but code generation runs ./cmd/main.go | fall back to `server` as start.go:372-375 does | high, not executed | Toolchain.CreateGenMissesEntryPoint | Toolchain.StarterGenRunsEntryPoint |
| internal/gooze-starter/start.go:226 | `err =` inside the loop overwrites an earlier render error, so the callback returns only the last one | two sub-services where rendering gen_a.sh fails and gen_b.sh succeeds: no error, gen_a.sh missing | keep the first error so the walk stops and reports it | medium, not executed | Materialize.EarlierRenderErrorLost | Materialize.StickyRunReportsAnyFailure |
| cmd/genmain.go:37-39 | on a failed template execution it returns `err`, the nil parse error | any execution fault: genMain reports success and writes nothing | return the execution error | high, not executed | MainGen.ExecFailureReportsSuccess | MainGen.GenMainChecked |
