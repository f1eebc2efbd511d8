/**
 * What `StartCmd` and `createCmd` do after the files are in place: `go mod init`,
 * `go get`, then handlerMain for every entry point, then the optional
 * "start now" run (internal/gooze-starter/start.go:277-330 and 354-402,
 * cmd/create.go:274-327 and 365-409).
 *
 * Commands are not executed: each one is a Step record of a trace, the
 * directory it runs in, its arguments, and whether its output is shown
 * (runCommandInDir) or discarded (runCommandInDirNoOutput). A failing
 * command ends the run with `log.Fatalf`; the trace is the sequence that
 * runs when none fails.
 */
module Toolchain {
  import opened Options
  import opened Paths
  import opened MainGen
  import opened Collect
  import opened Materialize

  /** One recorded effect: a `go` command, or a genMain call. */
  datatype Step =
    | Command(dir: string, args: seq<string>, shown: bool)
    | WriteMain(target: string, serverPath: string)

  /** The config file of a target, relative to the project. */
  function ConfigPath(moduleName: string): string
  {
    Join(["configs", (if moduleName == [] then "config" else moduleName) + ".yaml"])
  }

  /** The env file of a target, relative to the project. */
  function EnvName(moduleName: string): string
  {
    if moduleName == [] then ".env" else ".env." + moduleName
  }

  /** The entry point the code generator is run from. `StartCmd` falls back to
      `server` for the empty module name; `createCmd` joins the name as it is,
      and filepath.Join drops it when it is empty. */
  function MainPath(v: Variant, moduleName: string): string
  {
    match v
    case Starter => Join(["cmd", if moduleName == [] then "server" else moduleName, "main.go"])
    case Create => Join(["cmd", moduleName, "main.go"])
  }

  /** The package the final entry point imports for its side effects. */
  function ServerPath(projectName: string, moduleName: string): string
  {
    if moduleName == [] then projectName + "/internal/bootstrap"
    else projectName + "/internal/" + moduleName + "/bootstrap"
  }

  /** The arguments of the code-generation run. */
  function GenArgs(v: Variant, moduleName: string): seq<string>
  {
    ["go", "run", "./" + MainPath(v, moduleName), "gen", "api",
     "--config=./" + ConfigPath(moduleName), "--env=" + EnvName(moduleName),
     "--src=./api", "--output=./internal", "--log=false"]
  }

  /** What handlerMain does and returns. */
  datatype Handled = Handled(steps: seq<Step>, mainPath: string, configPath: string)

  /** handlerMain(target, projectName, moduleName): a stub entry point, `go
      mod tidy` in the target, code generation in the project, the final
      entry point, and a quiet `go mod tidy` in the project. */
  function HandlerMain(v: Variant, target: string, projectName: string, moduleName: string): (r: Handled)
    ensures |r.steps| == 5
    ensures r.steps[0] == WriteMain(target, []) && r.steps[3] == WriteMain(target, ServerPath(projectName, moduleName))
    ensures r.steps[1].Command? && r.steps[1].dir == target && r.steps[1].args == ["go", "mod", "tidy"] && r.steps[1].shown
    ensures r.steps[2].Command? && r.steps[2].dir == projectName && r.steps[2].args == GenArgs(v, moduleName)
    ensures r.steps[4].Command? && r.steps[4].dir == projectName && r.steps[4].args == ["go", "mod", "tidy"] && !r.steps[4].shown
    ensures r.mainPath == MainPath(v, moduleName) && r.configPath == ConfigPath(moduleName)
  {
    Handled(
      [WriteMain(target, []),
       Command(target, ["go", "mod", "tidy"], true),
       Command(projectName, GenArgs(v, moduleName), true),
       WriteMain(target, ServerPath(projectName, moduleName)),
       Command(projectName, ["go", "mod", "tidy"], false)],
      MainPath(v, moduleName), ConfigPath(moduleName))
  }

  /** With the empty module name handlerMain uses the single-service
      layout: `configs/config.yaml`, `.env`, `cmd/server/main.go` in `StartCmd`
      and `<project>/internal/bootstrap`. */
  lemma HandlerDefaultPaths(projectName: string)
    ensures ConfigPath([]) == "configs/config.yaml"
    ensures EnvName([]) == ".env"
    ensures MainPath(Starter, []) == "cmd/server/main.go"
    ensures MainPath(Create, []) == "cmd/main.go"
    ensures ServerPath(projectName, []) == projectName + "/internal/bootstrap"
  {
    DefaultConfigPath();
    StarterDefaultMain();
    CreateDefaultMain();
  }

  lemma DefaultConfigPath()
    ensures ConfigPath([]) == "configs/config.yaml"
  {
    assert "config" + ".yaml" == "config.yaml";
    JoinPair("configs", "config.yaml");
    assert "configs" + "/" + "config.yaml" == "configs/config.yaml";
  }

  lemma StarterDefaultMain()
    ensures MainPath(Starter, []) == "cmd/server/main.go"
  {
    JoinTriple("cmd", "server", "main.go");
    assert "cmd" + "/" + "server" + "/" + "main.go" == "cmd/server/main.go";
  }

  lemma CreateDefaultMain()
    ensures MainPath(Create, []) == "cmd/main.go"
  {
    JoinTriple("cmd", "", "main.go");
    assert "cmd" + "/" + "main.go" == "cmd/main.go";
  }

  /** With module `m` handlerMain uses `configs/m.yaml`, `.env.m`,
      `cmd/m/main.go` (in both variants) and `<project>/internal/m/bootstrap`. */
  lemma HandlerModulePaths(v: Variant, projectName: string, m: string)
    requires m != []
    ensures ConfigPath(m) == "configs/" + m + ".yaml"
    ensures EnvName(m) == ".env." + m
    ensures MainPath(v, m) == "cmd/" + m + "/main.go"
    ensures ServerPath(projectName, m) == projectName + "/internal/" + m + "/bootstrap"
  {
    assert ConfigPath(m) == "configs" + "/" + (m + ".yaml") by {
      JoinPair("configs", m + ".yaml");
    }
    assert MainPath(v, m) == "cmd" + "/" + m + "/" + "main.go" by {
      JoinTriple("cmd", m, "main.go");
    }
  }

  /** The main.go files the genMain calls of a trace leave behind, when
      none fails. */
  function MainFiles(files: map<string, string>, steps: seq<Step>): map<string, string>
    decreases |steps|
  {
    if steps == [] then files
    else
      var next :=
        match steps[0]
        case WriteMain(t, sp) =>
          var w := GenMain(t, sp, GenMainFaults(false, false, false)).written.value;
          files[w.0 := w.1]
        case Command(_, _, _) => files;
      MainFiles(next, steps[1..])
  }

  /** handlerMain writes `<target>/main.go` twice; the second write wins,
      so the entry point left behind imports the bootstrap package, while
      the stub written first imports nothing. */
  lemma FinalEntryPointWins(v: Variant, target: string, projectName: string, moduleName: string, files: map<string, string>)
    ensures var r := HandlerMain(v, target, projectName, moduleName);
            var path := Join([target, "main.go"]);
            && path in MainFiles(files, r.steps)
            && MainFiles(files, r.steps)[path] == MainSource(ServerPath(projectName, moduleName))
            && '_' !in MainSource([])
  {
    var r := HandlerMain(v, target, projectName, moduleName);
    var sp := ServerPath(projectName, moduleName);
    var path := Join([target, "main.go"]);
    var f1 := files[path := MainSource([])];
    var f4 := f1[path := MainSource(sp)];
    MainSourceShape([]);
    MainSourceShape(sp);
    var st := r.steps;
    assert st[1..][1..] == st[2..] && st[2..][1..] == st[3..] && st[3..][1..] == st[4..] && st[4..][1..] == [];
    assert MainFiles(files, st) == MainFiles(f1, st[1..]);
    assert MainFiles(f1, st[1..]) == MainFiles(f1, st[2..]);
    assert MainFiles(f1, st[2..]) == MainFiles(f1, st[3..]);
    assert MainFiles(f1, st[3..]) == MainFiles(f4, st[4..]);
    assert MainFiles(f4, st[4..]) == f4;
    StubHasNoBlankImport();
  }

  /** The final entry point imports `<project>/internal/bootstrap` or
      `<project>/internal/<m>/bootstrap` as a blank import. */
  lemma FinalEntryPointImport(projectName: string, moduleName: string)
    ensures var sp := ServerPath(projectName, moduleName);
            var src := MainSource(sp);
            |src| >= |MainHead| + |sp| + 4 && src[|MainHead|..|MainHead| + |sp| + 4] == "_ \"" + sp + "\""
  {
    var sp := ServerPath(projectName, moduleName);
    assert sp != [];
    FinalHasBlankImport(sp);
  }

  /** The directory handlerMain is given for a module: `cmd/<m>`, and
      `cmd/server` for the single service. */
  function TargetDir(projectName: string, moduleName: string): string
  {
    Join([projectName, "cmd", if moduleName == [] then "server" else moduleName])
  }

  /** In `createCmd`, single mode: the entry point is written to
      `cmd/server/main.go` but code generation runs `./cmd/main.go`. */
  lemma CreateGenMissesEntryPoint(projectName: string)
    requires projectName != []
    ensures GenArgs(Create, [])[2] == "./cmd/main.go"
    ensures Join([TargetDir(projectName, []), "main.go"]) == projectName + "/cmd/server/main.go"
    ensures Join([projectName, MainPath(Create, [])]) == projectName + "/cmd/main.go"
  {
    CreateDefaultMain();
    assert "./" + "cmd/main.go" == "./cmd/main.go";
    ServerEntryPoint(projectName);
    JoinPair(projectName, "cmd/main.go");
  }

  /** The single service's entry point is `<project>/cmd/server/main.go`. */
  lemma ServerEntryPoint(projectName: string)
    requires projectName != []
    ensures Join([TargetDir(projectName, []), "main.go"]) == projectName + "/cmd/server/main.go"
  {
    var target := TargetDir(projectName, []);
    assert target == projectName + "/cmd/server" by {
      JoinTriple(projectName, "cmd", "server");
    }
    JoinPair(target, "main.go");
  }

  /** In `StartCmd`, the entry point code generation runs is the one
      handlerMain wrote, for the single service and for every named
      sub-service. */
  lemma StarterGenRunsEntryPoint(projectName: string, moduleName: string)
    requires projectName != []
    ensures Join([projectName, MainPath(Starter, moduleName)]) == Join([TargetDir(projectName, moduleName), "main.go"])
  {
    var d := if moduleName == [] then "server" else moduleName;
    JoinRegroup(projectName, "cmd", d, "main.go");
  }

  /** A multi-mode answer with an empty piece (such as "a--b") gives a
      sub-service named "": its target is `cmd`, so its entry point is
      written to `cmd/main.go` while `StartCmd` generates from
      `cmd/server/main.go`. */
  lemma EmptyServiceMissesEntryPoint(projectName: string)
    requires projectName != []
    ensures Join([projectName, "cmd", []]) == projectName + "/cmd"
    ensures MainPath(Starter, []) == "cmd/server/main.go"
    ensures Join([Join([projectName, "cmd", []]), "main.go"]) != Join([projectName, MainPath(Starter, [])])
  {
    HandlerDefaultPaths(projectName);
    assert [projectName, "cmd", []][..2] == [projectName, "cmd"];
    JoinPair(projectName, "cmd");
    JoinPair(projectName + "/cmd", "main.go");
    JoinPair(projectName, "cmd/server/main.go");
    var a, b := projectName + "/cmd/main.go", projectName + "/cmd/server/main.go";
    assert a[|projectName| + 5] == 'm' && b[|projectName| + 5] == 's';
  }

  /** The (target, module) pairs handlerMain is called with, in order. */
  function Targets(spec: ProjectSpec): (ts: seq<(string, string)>)
    ensures |ts| == if spec.isMulti then |spec.subDirs| else 1
  {
    if spec.isMulti then
      seq(|spec.subDirs|, k requires 0 <= k < |spec.subDirs| =>
        (Join([spec.name, "cmd", spec.subDirs[k]]), spec.subDirs[k]))
    else [(Join([spec.name, "cmd", "server"]), [])]
  }

  /** The two module commands run before any entry point is generated. */
  function Prelude(projectName: string): seq<Step>
  {
    [Command(projectName, ["go", "mod", "init", projectName], false),
     Command(projectName, ["go", "get", "-u", "github.com/soryetong/gooze-starter"], false)]
  }

  /** The handlerMain steps of the given targets, one after the other. */
  function TargetSteps(v: Variant, projectName: string, ts: seq<(string, string)>): seq<Step>
    decreases |ts|
  {
    if ts == [] then []
    else TargetSteps(v, projectName, ts[..|ts| - 1]) + HandlerMain(v, ts[|ts| - 1].0, projectName, ts[|ts| - 1].1).steps
  }

  /** One more target appends its five steps. */
  lemma TargetStepsSnoc(v: Variant, projectName: string, ts: seq<(string, string)>, i: nat)
    requires i < |ts|
    ensures TargetSteps(v, projectName, ts[..i + 1])
         == TargetSteps(v, projectName, ts[..i]) + HandlerMain(v, ts[i].0, projectName, ts[i].1).steps
  {
    assert ts[..i + 1][..i] == ts[..i] && ts[..i + 1][i] == ts[i];
  }

  /** The whole toolchain trace. */
  function ToolchainSteps(v: Variant, spec: ProjectSpec): seq<Step>
  {
    Prelude(spec.name) + TargetSteps(v, spec.name, Targets(spec))
  }

  /** Every target contributes five steps. */
  lemma {:induction false} TargetStepsLength(v: Variant, projectName: string, ts: seq<(string, string)>)
    ensures |TargetSteps(v, projectName, ts)| == 5 * |ts|
    decreases |ts|
  {
    if ts != [] {
      TargetStepsLength(v, projectName, ts[..|ts| - 1]);
    }
  }

  /** The handlerMain steps of the k-th target occupy five consecutive
      places, in target order. */
  lemma {:induction false} TargetStepsAt(v: Variant, projectName: string, ts: seq<(string, string)>, k: nat)
    requires k < |ts|
    ensures |TargetSteps(v, projectName, ts)| == 5 * |ts|
    ensures TargetSteps(v, projectName, ts)[5 * k..5 * k + 5] == HandlerMain(v, ts[k].0, projectName, ts[k].1).steps
    decreases |ts|
  {
    TargetStepsLength(v, projectName, ts);
    var init := ts[..|ts| - 1];
    var a := TargetSteps(v, projectName, init);
    var b := HandlerMain(v, ts[|ts| - 1].0, projectName, ts[|ts| - 1].1).steps;
    assert TargetSteps(v, projectName, ts) == a + b;
    TargetStepsLength(v, projectName, init);
    if k < |ts| - 1 {
      TargetStepsAt(v, projectName, init, k);
      assert init[k] == ts[k];
      SliceOfConcat(a, b, 5 * k, 5 * k + 5);
    } else {
      SliceOfConcat(a, b, |a|, |a| + |b|);
    }
  }

  /** A slice of a concatenation that lies within one of its parts. */
  lemma SliceOfConcat(a: seq<Step>, b: seq<Step>, i: nat, j: nat)
    requires i <= j <= |a| || (i == |a| && j == |a| + |b|)
    ensures (a + b)[i..j] == if j <= |a| then a[i..j] else b
  {
  }

  /** `go mod init` and `go get` come first; then each target's five
      steps, targets in input order. */
  lemma ToolchainLayout(v: Variant, spec: ProjectSpec, k: nat)
    requires k < |Targets(spec)|
    ensures var steps, t := ToolchainSteps(v, spec), Targets(spec)[k];
            && |steps| == 2 + 5 * |Targets(spec)|
            && steps[..2] == Prelude(spec.name)
            && steps[2 + 5 * k..7 + 5 * k] == HandlerMain(v, t.0, spec.name, t.1).steps
  {
    var pre, rest := Prelude(spec.name), TargetSteps(v, spec.name, Targets(spec));
    TargetStepsAt(v, spec.name, Targets(spec), k);
    SliceAfterPrefix(pre, rest, 5 * k, 5 * k + 5);
  }

  /** Slices of `a + b` that start at or after `|a|`. */
  lemma SliceAfterPrefix(a: seq<Step>, b: seq<Step>, i: nat, j: nat)
    requires i <= j <= |b|
    ensures (a + b)[..|a|] == a
    ensures (a + b)[|a| + i..|a| + j] == b[i..j]
  {
  }

  /** The handlerMain calls of the `for` loop, one per target. */
  method RunTargets(v: Variant, projectName: string, ts: seq<(string, string)>) returns (steps: seq<Step>)
    ensures steps == TargetSteps(v, projectName, ts)
  {
    steps := [];
    for i := 0 to |ts|
      invariant steps == TargetSteps(v, projectName, ts[..i])
    {
      var r := HandlerMain(v, ts[i].0, projectName, ts[i].1);
      TargetStepsSnoc(v, projectName, ts, i);
      steps := steps + r.steps;
    }
    assert ts[..|ts|] == ts;
  }

  /** The toolchain phase: the module commands, then handlerMain for each
      sub-service, or once for the single service. */
  method RunToolchain(v: Variant, spec: ProjectSpec) returns (trace: seq<Step>)
    ensures trace == ToolchainSteps(v, spec)
  {
    var projectName := spec.name;
    trace := [Command(projectName, ["go", "mod", "init", projectName], false)];
    trace := trace + [Command(projectName, ["go", "get", "-u", "github.com/soryetong/gooze-starter"], false)];
    var rest := RunTargets(v, projectName, Targets(spec));
    trace := trace + rest;
  }

  /** The three variables the last prompt decides: which entry point to
      run, with which env file and which config file. */
  datatype StartChoice = StartChoice(target: string, envName: string, configName: string)

  /** The last prompt. In multi mode `picked` is the option chosen from
      the sub-services and "No" (None when the prompt failed); in single
      mode `startNow` is the confirmation. */
  function StartSelection(isMulti: bool, picked: Option<string>, startNow: bool): StartChoice
  {
    if isMulti then
      if picked.Some? && picked.value != "No" then
        StartChoice(picked.value, ".env." + picked.value, picked.value + ".yaml")
      else StartChoice(if picked.Some? then picked.value else [], [], [])
    else if startNow then StartChoice("server", ".env", "config.yaml")
    else StartChoice([], [], [])
  }

  /** The `go run` that starts the chosen service, if any. */
  function StartCommand(projectName: string, c: StartChoice): Option<Step>
  {
    if c.target != [] && c.target != "No" then
      Some(Command(projectName,
                   ["go", "run", "./" + Join(["cmd", c.target, "main.go"]),
                    "--config=./configs/" + c.configName, "--env=" + c.envName], true))
    else None
  }

  /** A service is started exactly when, in multi mode, an option other
      than "No" and other than an empty sub-service name was picked, or,
      in single mode, the confirmation was yes. */
  lemma StartRunsIff(projectName: string, isMulti: bool, picked: Option<string>, startNow: bool)
    ensures StartCommand(projectName, StartSelection(isMulti, picked, startNow)).Some?
        <==> (isMulti && picked.Some? && picked.value != [] && picked.value != "No") || (!isMulti && startNow)
  {
  }

  /** Started in multi mode, sub-service `t` runs `./cmd/t/main.go` with
      `--config=./configs/t.yaml` and `--env=.env.t`; these are the config
      and env files the template walk wrote for it. */
  lemma StartFlagsMulti(spec: ProjectSpec, data: seq<byte>, k: nat, startNow: bool)
    requires spec.isMulti && k < |spec.subDirs|
    requires spec.subDirs[k] != [] && spec.subDirs[k] != "No"
    ensures var t := spec.subDirs[k];
            var c := StartSelection(true, Some(t), startNow);
            && StartCommand(spec.name, c)
               == Some(Command(spec.name, ["go", "run", "./cmd/" + t + "/main.go",
                                           "--config=./configs/" + t + ".yaml", "--env=.env." + t], true))
            && Join([spec.name, "configs", c.configName]) == ConfigPlan(spec, data)[k].dest
            && Join([spec.name, c.envName]) == EnvPlan(spec, data)[k].dest
            && Join(["cmd", c.target, "main.go"]) == MainPath(Starter, t)
  {
    var t := spec.subDirs[k];
    JoinTriple("cmd", t, "main.go");
    assert "./" + ("cmd" + "/" + t + "/" + "main.go") == "./cmd/" + t + "/main.go";
    assert "--config=./configs/" + (t + ".yaml") == "--config=./configs/" + t + ".yaml";
    assert "--env=" + (".env." + t) == "--env=.env." + t;
  }

  /** Started in single mode, the service runs `./cmd/server/main.go` with
      the config and env files the walk wrote. */
  lemma StartFlagsSingle(spec: ProjectSpec, data: seq<byte>, picked: Option<string>)
    requires !spec.isMulti
    ensures var c := StartSelection(false, picked, true);
            && StartCommand(spec.name, c)
               == Some(Command(spec.name, ["go", "run", "./cmd/server/main.go",
                                           "--config=./configs/config.yaml", "--env=.env"], true))
            && Join([spec.name, "configs", c.configName]) == ConfigPlan(spec, data)[0].dest
            && Join([spec.name, c.envName]) == EnvPlan(spec, data)[0].dest
  {
    JoinTriple("cmd", "server", "main.go");
    assert "./" + ("cmd" + "/" + "server" + "/" + "main.go") == "./cmd/server/main.go";
    assert "--config=./configs/" + "config.yaml" == "--config=./configs/config.yaml";
    assert "--env=" + ".env" == "--env=.env";
  }

  /** A sub-service named "No" cannot be started: choosing it reads as
      declining. */
  lemma ServiceNamedNoNeverStarts(projectName: string, startNow: bool)
    ensures StartCommand(projectName, StartSelection(true, Some("No"), startNow)) == None
  {
  }
}
