/**
 * The file-system half of `StartCmd` (internal/gooze-starter/start.go:123-273)
 * and of its twin `createCmd` (cmd/create.go:122-270): the project directory,
 * the five placeholder directories, and the fs.WalkDir over the embedded
 * templates whose callback switches on each entry's base name.
 *
 * The file system is the `files` map of a ProjectTree, from path to what
 * was written there. Which writes fail is an input: `fails` is the set of
 * paths whose creation fails. A failed write or render leaves the map as it
 * was. `log.Fatalf` ends the run; here it ends the method with a Halt value
 * that says where.
 *
 * Each operation is specified by a function on values (EntryPlan, RunFrom,
 * WalkFrom, ScaffoldSpec), and the methods that change the tree are proved
 * against those functions.
 */
module Materialize {
  import opened Options
  import opened Paths
  import opened Collect
  import Unicode

  newtype byte = b: int | 0 <= b < 256

  /** What ends up in a file: the template bytes copied as they are, or a
      template rendered with a context. The text/template engine is not
      modelled, so a rendered file is the template's name, its source and
      the map it was executed with. */
  datatype Content =
    | Bytes(data: seq<byte>)
    | Rendered(name: string, source: seq<byte>, context: map<string, string>)

  /** The two copies of the scaffolder, both registered as the `init`
      command: `StartCmd` (internal/gooze-starter) and `createCmd` (cmd). */
  datatype Variant = Starter | Create

  /** One entry of the embedded `templates` directory, in walk order. */
  datatype Entry = Entry(path: string, isDir: bool, data: seq<byte>)

  /** One write the callback performs: the destination, what is written,
      and whether a failure is fatal on the spot (`log.Fatalf`) or only
      assigned to the callback's `err`. */
  datatype Action = Action(dest: string, content: Content, fatal: bool)

  /** The first port handed out; each further sub-service gets the next. */
  const BasePort: nat := 18168

  /** The router prefix every env file gets. */
  const RouterPrefix: string := "api/v1"

  /** The context of the env template. */
  function EnvContext(name: string, port: nat): map<string, string>
  {
    map["projectName" := name, "projectPort" := ":" + Decimal(port), "projectRouterPrefix" := RouterPrefix]
  }

  /** The context of start.sh.template. */
  function StartContext(name: string, mainPath: string, configPath: string, envPath: string): map<string, string>
  {
    map["Name" := name, "MainPath" := mainPath, "ConfigPath" := configPath, "EnvPath" := envPath]
  }

  /** The context of gen.sh.template: the start context plus the source and
      output directories of the code generator. */
  function GenContext(name: string, mainPath: string, configPath: string, envPath: string): map<string, string>
  {
    StartContext(name, mainPath, configPath, envPath)["SrcPath" := "./api"]["OutputPath" := "./internal"]
  }

  /** The entry-point path, config path and env path of sub-service `d`, as
      the script templates receive them. */
  function SubMainPath(d: string): string { "./cmd/" + d + "/main.go" }
  function SubConfigPath(d: string): string { "./configs/" + d + ".yaml" }
  function SubEnvPath(d: string): string { ".env." + d }

  /** The writes of the `user.api` case: one copy per sub-service under
      `api/<d>/`, or one under `api/`; a failure is fatal. */
  function UserApiPlan(spec: ProjectSpec, data: seq<byte>): (r: seq<Action>)
    ensures |r| == if spec.isMulti then |spec.subDirs| else 1
    ensures forall k :: 0 <= k < |r| ==> r[k].fatal && r[k].content == Bytes(data)
  {
    var p, subDirs := spec.name, spec.subDirs;
    if spec.isMulti then
      seq(|subDirs|, k requires 0 <= k < |subDirs| =>
        Action(Join([p, "api", subDirs[k], "user.api"]), Bytes(data), true))
    else [Action(Join([p, "api", "user.api"]), Bytes(data), true)]
  }

  /** The writes of the `config.yaml` case: `configs/<d>.yaml` per
      sub-service, or `configs/config.yaml`; a failure is fatal. */
  function ConfigPlan(spec: ProjectSpec, data: seq<byte>): (r: seq<Action>)
    ensures |r| == if spec.isMulti then |spec.subDirs| else 1
    ensures forall k :: 0 <= k < |r| ==> r[k].fatal && r[k].content == Bytes(data)
  {
    var p, subDirs := spec.name, spec.subDirs;
    if spec.isMulti then
      seq(|subDirs|, k requires 0 <= k < |subDirs| =>
        Action(Join([p, "configs", subDirs[k] + ".yaml"]), Bytes(data), true))
    else [Action(Join([p, "configs", "config.yaml"]), Bytes(data), true)]
  }

  /** The renders of the `env` case: `.env.<d>` for the k-th sub-service
      with name `<project>-<d>` and port BasePort + k, or `.env` with the
      project name and BasePort. */
  function EnvPlan(spec: ProjectSpec, data: seq<byte>): (r: seq<Action>)
    ensures |r| == if spec.isMulti then |spec.subDirs| else 1
    ensures forall k :: 0 <= k < |r| ==> !r[k].fatal
  {
    var p, subDirs := spec.name, spec.subDirs;
    if spec.isMulti then
      seq(|subDirs|, k requires 0 <= k < |subDirs| =>
        Action(Join([p, ".env." + subDirs[k]]),
               Rendered("env", data, EnvContext(p + "-" + subDirs[k], BasePort + k)), false))
    else [Action(Join([p, ".env"]), Rendered("env", data, EnvContext(p, BasePort)), false)]
  }

  /** The renders of the `gen.sh.template` case. */
  function GenScriptPlan(spec: ProjectSpec, data: seq<byte>): (r: seq<Action>)
    ensures |r| == if spec.isMulti then |spec.subDirs| else 1
    ensures forall k :: 0 <= k < |r| ==> !r[k].fatal
  {
    var p, subDirs := spec.name, spec.subDirs;
    if spec.isMulti then
      seq(|subDirs|, k requires 0 <= k < |subDirs| =>
        Action(Join([p, "build", "scripts", "gen_" + subDirs[k] + ".sh"]),
               Rendered("gen.sh.template", data,
                        GenContext(subDirs[k], SubMainPath(subDirs[k]), SubConfigPath(subDirs[k]), SubEnvPath(subDirs[k]))),
               false))
    else
      [Action(Join([p, "build", "scripts", "gen_server.sh"]),
              Rendered("gen.sh.template", data,
                       GenContext("server", "./cmd/server/main.go", "./configs/config.yaml", ".env")),
              false)]
  }

  /** The renders of the `start.sh.template` case. */
  function StartScriptPlan(spec: ProjectSpec, data: seq<byte>): (r: seq<Action>)
    ensures |r| == if spec.isMulti then |spec.subDirs| else 1
    ensures forall k :: 0 <= k < |r| ==> !r[k].fatal
  {
    var p, subDirs := spec.name, spec.subDirs;
    if spec.isMulti then
      seq(|subDirs|, k requires 0 <= k < |subDirs| =>
        Action(Join([p, "build", "scripts", "start_" + subDirs[k] + ".sh"]),
               Rendered("start.sh.template", data,
                        StartContext(subDirs[k], SubMainPath(subDirs[k]), SubConfigPath(subDirs[k]), SubEnvPath(subDirs[k]))),
               false))
    else
      [Action(Join([p, "build", "scripts", "start_server.sh"]),
              Rendered("start.sh.template", data,
                       StartContext("server", "./cmd/server/main.go", "./configs/config.yaml", ".env")),
              false)]
  }

  /** The single copy of the remaining cases, if the base name, the variant
      and the mode call for one. */
  function CopyTarget(v: Variant, spec: ProjectSpec, baseName: string): Option<string>
  {
    var p := spec.name;
    match baseName
    case "gitignore" => Some(Join([p, ".gitignore"]))
    case "rbac_model.conf" => if v == Starter then Some(Join([p, "configs", "rbac_model.conf"])) else None
    case "README1.md" => if !spec.isMulti then Some(Join([p, "README.md"])) else None
    case "README2.md" => if spec.isMulti then Some(Join([p, "README.md"])) else None
    case "gen.sh" => Some(Join([p, "build", "scripts", "gen.sh"]))
    case _ => None
  }

  /** The switch of the WalkDir callback: the writes for a file entry
      with this base name and these bytes, in order. Base names the switch
      does not list give none. */
  function CasePlan(v: Variant, spec: ProjectSpec, baseName: string, data: seq<byte>): seq<Action>
  {
    match baseName
    case "user.api" => UserApiPlan(spec, data)
    case "config.yaml" => ConfigPlan(spec, data)
    case "env" => EnvPlan(spec, data)
    case "gen.sh.template" => GenScriptPlan(spec, data)
    case "start.sh.template" => StartScriptPlan(spec, data)
    case _ =>
      var t := CopyTarget(v, spec, baseName);
      if t.Some? then [Action(t.value, Bytes(data), false)] else []
  }

  /** The writes the WalkDir callback performs for one entry: none for a
      directory, otherwise the case of its base name. */
  function EntryPlan(v: Variant, spec: ProjectSpec, e: Entry): seq<Action>
  {
    if e.isDir then [] else CasePlan(v, spec, Base(e.path), e.data)
  }

  /** The state of one callback: the files, the callback's `err` (did the
      last assigned write fail?) and the path of a fatal failure, if any. */
  datatype Exec = Exec(files: map<string, Content>, err: bool, fatal: Option<string>)

  /** One write: a failed fatal write stops everything; a failed other write
      sets `err`; a successful one stores its content and clears `err`. */
  function Step(fails: set<string>, x: Exec, a: Action): Exec
  {
    if x.fatal.Some? then x
    else if a.dest in fails then Exec(x.files, true, if a.fatal then Some(a.dest) else None)
    else Exec(x.files[a.dest := a.content], false, None)
  }

  /** The writes `acts`, one after the other, from state `x`. */
  function RunFrom(fails: set<string>, x: Exec, acts: seq<Action>): Exec
    decreases |acts|
  {
    if acts == [] then x else RunFrom(fails, Step(fails, x, acts[0]), acts[1..])
  }

  /** After a fatal failure nothing more happens. */
  lemma {:induction false} FatalIsFinal(fails: set<string>, x: Exec, acts: seq<Action>)
    requires x.fatal.Some?
    ensures RunFrom(fails, x, acts) == x
  {
    if acts != [] {
      FatalIsFinal(fails, Step(fails, x, acts[0]), acts[1..]);
    }
  }

  /** A single write is one Step. */
  lemma RunOne(fails: set<string>, x: Exec, a: Action)
    ensures RunFrom(fails, x, [a]) == Step(fails, x, a)
  {
    assert [a][1..] == [];
  }

  /** Where a run stopped. `Running` means it did not stop. */
  datatype Halt =
    | Running
    | RootFailed            // os.MkdirAll(projectName) failed
    | DirFailed(dir: string) // createEmptyDir failed
    | WriteFatal(dest: string) // a write with `log.Fatalf` on failure failed
    | WalkFailed(entry: string) // the callback returned an error for this entry

  /** The file system together with where the run stopped. */
  datatype Tree = Tree(files: map<string, Content>, halt: Halt)

  /** The WalkDir callback on one entry, after which the walk either goes on
      or stops with the callback's error. */
  function Visit(fails: set<string>, v: Variant, spec: ProjectSpec, t: Tree, e: Entry): Tree
  {
    if t.halt != Running then t
    else
      var x := RunFrom(fails, Exec(t.files, false, None), EntryPlan(v, spec, e));
      Tree(x.files, if x.fatal.Some? then WriteFatal(x.fatal.value) else if x.err then WalkFailed(e.path) else Running)
  }

  /** fs.WalkDir over the catalog: entries in order, stopping at the first
      one whose callback fails. */
  function WalkFrom(fails: set<string>, v: Variant, spec: ProjectSpec, t: Tree, catalog: seq<Entry>): Tree
    decreases |catalog|
  {
    if catalog == [] then t else WalkFrom(fails, v, spec, Visit(fails, v, spec, t, catalog[0]), catalog[1..])
  }

  /** Once stopped, the walk visits nothing more. */
  lemma {:induction false} HaltIsFinal(fails: set<string>, v: Variant, spec: ProjectSpec, t: Tree, catalog: seq<Entry>)
    requires t.halt != Running
    ensures WalkFrom(fails, v, spec, t, catalog) == t
  {
    if catalog != [] {
      HaltIsFinal(fails, v, spec, t, catalog[1..]);
    }
  }

  /** The placeholder directories, in the order they are created; the
      models directory is `models` in `StartCmd` and `pkg/models` in `createCmd`. */
  function EmptyDirs(v: Variant, p: string): seq<string>
  {
    [Join([p, "build", "scripts"]), Join([p, "build", "docker"]), Join([p, "test"]),
     if v == Starter then Join([p, "models"]) else Join([p, "pkg", "models"]),
     Join([p, "static", "storage"])]
  }

  /** The `.gitkeep` file of a placeholder directory. */
  function KeepFile(dir: string): string { Join([dir, ".gitkeep"]) }

  /** createEmptyDir on each directory in turn, stopping at the first that
      fails. */
  function MakeDirs(fails: set<string>, t: Tree, dirs: seq<string>): Tree
    decreases |dirs|
  {
    if dirs == [] || t.halt != Running then t
    else if dirs[0] in fails || KeepFile(dirs[0]) in fails then Tree(t.files, DirFailed(dirs[0]))
    else MakeDirs(fails, Tree(t.files[KeepFile(dirs[0]) := Bytes([])], Running), dirs[1..])
  }

  /** One createEmptyDir of MakeDirs: a failure stops at that directory,
      a success adds its `.gitkeep` and goes on with the rest. */
  lemma MakeDirsStep(fails: set<string>, files: map<string, Content>, dirs: seq<string>)
    requires dirs != []
    ensures MakeDirs(fails, Tree(files, Running), dirs)
         == if dirs[0] in fails || KeepFile(dirs[0]) in fails then Tree(files, DirFailed(dirs[0]))
            else MakeDirs(fails, Tree(files[KeepFile(dirs[0]) := Bytes([])], Running), dirs[1..])
  {
  }

  /** The whole file-system phase: the project directory (os.MkdirAll fails
      on the empty name), the placeholder directories, then the walk. */
  function ScaffoldSpec(fails: set<string>, v: Variant, spec: ProjectSpec, catalog: seq<Entry>, files: map<string, Content>): Tree
  {
    if spec.name == [] || spec.name in fails then Tree(files, RootFailed)
    else
      var t := MakeDirs(fails, Tree(files, Running), EmptyDirs(v, spec.name));
      if t.halt != Running then t else WalkFrom(fails, v, spec, t, catalog)
  }

  // ---------------------------------------------------------------------
  // Properties of the plan and of its execution

  /** The callback looks only at whether the entry is a directory, its
      base name and its bytes: two file entries with the same base name
      and bytes, wherever they sit in the tree, are handled alike. */
  lemma DispatchByBaseName(v: Variant, spec: ProjectSpec, e1: Entry, e2: Entry)
    requires !e1.isDir && !e2.isDir && Base(e1.path) == Base(e2.path) && e1.data == e2.data
    ensures EntryPlan(v, spec, e1) == EntryPlan(v, spec, e2)
  {
  }

  /** The base names the switch lists. */
  predicate Listed(baseName: string) {
    baseName in {"user.api", "config.yaml", "env", "gitignore", "rbac_model.conf", "README1.md",
                 "README2.md", "gen.sh", "gen.sh.template", "start.sh.template"}
  }

  /** A directory entry, or a file whose base name the switch does not
      list, writes nothing and does not stop the walk. */
  lemma UnlistedEntryIsSkipped(fails: set<string>, v: Variant, spec: ProjectSpec, files: map<string, Content>, e: Entry)
    requires e.isDir || !Listed(Base(e.path))
    ensures Visit(fails, v, spec, Tree(files, Running), e) == Tree(files, Running)
  {
  }

  /** `createCmd` has no `rbac_model.conf` case: that entry is skipped there,
      while `StartCmd` copies it to `configs/rbac_model.conf`. */
  lemma RbacOnlyInStarter(spec: ProjectSpec, e: Entry)
    requires !e.isDir && Base(e.path) == "rbac_model.conf"
    ensures EntryPlan(Create, spec, e) == []
    ensures EntryPlan(Starter, spec, e) == [Action(Join([spec.name, "configs", "rbac_model.conf"]), Bytes(e.data), false)]
  {
    RbacCase(spec, e.data);
  }

  /** Only the `user.api` and `config.yaml` cases stop the run on a failed
      write (log.Fatalf); every other failure only becomes the callback's
      error. */
  lemma FatalOnlyForApiAndConfig(v: Variant, spec: ProjectSpec, baseName: string, data: seq<byte>, k: nat)
    requires k < |CasePlan(v, spec, baseName, data)| && CasePlan(v, spec, baseName, data)[k].fatal
    ensures baseName == "user.api" || baseName == "config.yaml"
  {
  }

  /** The rbac case of the switch, by base name. */
  lemma RbacCase(spec: ProjectSpec, d: seq<byte>)
    ensures CasePlan(Create, spec, "rbac_model.conf", d) == []
    ensures CasePlan(Starter, spec, "rbac_model.conf", d) == [Action(Join([spec.name, "configs", "rbac_model.conf"]), Bytes(d), false)]
  {
  }

  /** Of README1.md and README2.md exactly one is copied, always to
      `README.md`: the first in single mode, the second in multi mode. */
  lemma ExactlyOneReadme(v: Variant, spec: ProjectSpec, r1: Entry, r2: Entry)
    requires !r1.isDir && Base(r1.path) == "README1.md"
    requires !r2.isDir && Base(r2.path) == "README2.md"
    ensures EntryPlan(v, spec, r1) + EntryPlan(v, spec, r2)
         == [Action(Join([spec.name, "README.md"]), Bytes(if spec.isMulti then r2.data else r1.data), false)]
  {
    ReadmeCases(v, spec, r1.data, r2.data);
  }

  /** The two README cases of the switch, by base name. */
  lemma ReadmeCases(v: Variant, spec: ProjectSpec, d1: seq<byte>, d2: seq<byte>)
    ensures CasePlan(v, spec, "README1.md", d1) + CasePlan(v, spec, "README2.md", d2)
         == [Action(Join([spec.name, "README.md"]), Bytes(if spec.isMulti then d2 else d1), false)]
  {
  }

  /** Under a fixed directory, distinct non-empty names give distinct
      paths. */
  lemma JoinPairInjective(p: string, x: string, y: string)
    requires x != [] && y != [] && Join([p, x]) == Join([p, y])
    ensures x == y
  {
    JoinPair(p, x);
    JoinPair(p, y);
    if p != [] {
      assert x == (p + "/" + x)[|p| + 1..];
      assert y == (p + "/" + y)[|p| + 1..];
    }
  }

  /** The env file of each sub-service receives a port of its own. */
  lemma EnvPortsDistinct(spec: ProjectSpec, data: seq<byte>, j: nat, k: nat)
    requires spec.isMulti && j < |spec.subDirs| && k < |spec.subDirs| && j != k
    ensures PortOf(EnvPlan(spec, data)[k]) == ":" + Decimal(18168 + k)
    ensures PortOf(EnvPlan(spec, data)[j]) != PortOf(EnvPlan(spec, data)[k])
  {
    EnvPortAt(spec, data, j);
    EnvPortAt(spec, data, k);
    PortTextInjective(BasePort + j, BasePort + k);
  }

  /** The k-th render of the env case in multi mode carries port `BasePort + k`. */
  lemma EnvPortAt(spec: ProjectSpec, data: seq<byte>, k: nat)
    requires spec.isMulti && k < |spec.subDirs|
    ensures PortOf(EnvPlan(spec, data)[k]) == ":" + Decimal(BasePort + k)
  {
    EnvPlanAt(spec, data, k);
    EnvContextPort(spec.name + "-" + spec.subDirs[k], BasePort + k);
  }

  /** The port a render was given, or "" for anything else. */
  function PortOf(a: Action): string
  {
    if a.content.Rendered? && "projectPort" in a.content.context then a.content.context["projectPort"] else []
  }

  /** The k-th render of the env case in multi mode. */
  lemma EnvPlanAt(spec: ProjectSpec, data: seq<byte>, k: nat)
    requires spec.isMulti && k < |spec.subDirs|
    ensures EnvPlan(spec, data)[k]
         == Action(Join([spec.name, ".env." + spec.subDirs[k]]),
                   Rendered("env", data, EnvContext(spec.name + "-" + spec.subDirs[k], BasePort + k)), false)
  {
  }

  /** The port entry of an env context. */
  lemma EnvContextPort(name: string, port: nat)
    ensures "projectPort" in EnvContext(name, port)
    ensures EnvContext(name, port)["projectPort"] == ":" + Decimal(port)
  {
  }

  /** Distinct ports are written as distinct `:%d` texts. */
  lemma PortTextInjective(a: nat, b: nat)
    requires a != b
    ensures ":" + Decimal(a) != ":" + Decimal(b)
  {
    var ta, tb := ":" + Decimal(a), ":" + Decimal(b);
    if ta == tb {
      assert ta[1..] == Decimal(a);
      assert tb[1..] == Decimal(b);
      DecimalInjective(a, b);
    }
  }

  /** The map after the writes `acts`, when none of them fails. */
  function Overlay(f: map<string, Content>, acts: seq<Action>): map<string, Content>
    decreases |acts|
  {
    if acts == [] then f else Overlay(f[acts[0].dest := acts[0].content], acts[1..])
  }

  /** None of the writes fails. */
  predicate NoFailures(fails: set<string>, acts: seq<Action>) {
    forall k :: 0 <= k < |acts| ==> acts[k].dest !in fails
  }

  /** Without failures, a run stores every write in order, ends with no
      error (unless it had no write to clear one) and is never fatal. */
  lemma {:induction false} FailureFreeRun(fails: set<string>, x: Exec, acts: seq<Action>)
    requires x.fatal == None && NoFailures(fails, acts)
    ensures RunFrom(fails, x, acts) == Exec(Overlay(x.files, acts), x.err && acts == [], None)
    decreases |acts|
  {
    if acts != [] {
      FailureFreeRun(fails, Step(fails, x, acts[0]), acts[1..]);
    }
  }

  /** A path no write targets keeps what it held. */
  lemma {:induction false} OverlayElsewhere(f: map<string, Content>, acts: seq<Action>, d: string)
    requires forall k :: 0 <= k < |acts| ==> acts[k].dest != d
    ensures (d in Overlay(f, acts) <==> d in f) && (d in f ==> Overlay(f, acts)[d] == f[d])
    decreases |acts|
  {
    if acts != [] {
      OverlayElsewhere(f[acts[0].dest := acts[0].content], acts[1..], d);
    }
  }

  /** A path holds what the last write to it stored. */
  lemma {:induction false} OverlayLastWrite(f: map<string, Content>, acts: seq<Action>, k: nat)
    requires k < |acts|
    requires forall j :: k < j < |acts| ==> acts[j].dest != acts[k].dest
    ensures acts[k].dest in Overlay(f, acts) && Overlay(f, acts)[acts[k].dest] == acts[k].content
    decreases |acts|
  {
    var g := f[acts[0].dest := acts[0].content];
    if k == 0 {
      OverlayElsewhere(g, acts[1..], acts[0].dest);
    } else {
      OverlayLastWrite(g, acts[1..], k - 1);
    }
  }

  /** Overlaying two lists of writes is overlaying their concatenation. */
  lemma {:induction false} OverlayAppend(f: map<string, Content>, a: seq<Action>, b: seq<Action>)
    ensures Overlay(f, a + b) == Overlay(Overlay(f, a), b)
    decreases |a|
  {
    if a != [] {
      assert (a + b)[0] == a[0] && (a + b)[1..] == a[1..] + b;
      OverlayAppend(f[a[0].dest := a[0].content], a[1..], b);
    } else {
      assert a + b == b;
    }
  }

  /** After a failure-free multi-mode env visit with distinct sub-service
      names, `.env.<d>` of the k-th sub-service holds the env template
      rendered with name `<project>-<d>`, port BasePort + k and the router
      prefix. */
  lemma EnvFileOfService(fails: set<string>, spec: ProjectSpec, files: map<string, Content>, data: seq<byte>, k: nat)
    requires spec.isMulti && k < |spec.subDirs|
    requires forall i, j :: 0 <= i < j < |spec.subDirs| ==> spec.subDirs[i] != spec.subDirs[j]
    requires NoFailures(fails, EnvPlan(spec, data))
    ensures var out := RunFrom(fails, Exec(files, false, None), EnvPlan(spec, data));
            var path := Join([spec.name, ".env." + spec.subDirs[k]]);
            && !out.err && out.fatal == None
            && path in out.files
            && out.files[path] == Rendered("env", data, EnvContext(spec.name + "-" + spec.subDirs[k], BasePort + k))
            && out.files[path].context["projectPort"] == ":" + Decimal(18168 + k)
            && out.files[path].context["projectRouterPrefix"] == "api/v1"
  {
    var plan := EnvPlan(spec, data);
    FailureFreeRun(fails, Exec(files, false, None), plan);
    forall j | k < j < |plan| ensures plan[j].dest != plan[k].dest {
      var dj, dk := spec.subDirs[j], spec.subDirs[k];
      assert (".env." + dj)[5..] == dj && (".env." + dk)[5..] == dk;
      if plan[j].dest == plan[k].dest {
        JoinPairInjective(spec.name, ".env." + dj, ".env." + dk);
      }
    }
    OverlayLastWrite(files, plan, k);
  }

  /** In single mode the env template is rendered once, to `.env`, with
      the project name and the first port. */
  lemma EnvFileSingle(fails: set<string>, spec: ProjectSpec, files: map<string, Content>, data: seq<byte>)
    requires !spec.isMulti && Join([spec.name, ".env"]) !in fails
    ensures RunFrom(fails, Exec(files, false, None), EnvPlan(spec, data))
         == Exec(files[Join([spec.name, ".env"]) := Rendered("env", data, EnvContext(spec.name, 18168))], false, None)
  {
    RunOne(fails, Exec(files, false, None), EnvPlan(spec, data)[0]);
  }

  /** All the writes of a catalog, entry after entry. */
  function AllPlans(v: Variant, spec: ProjectSpec, catalog: seq<Entry>): seq<Action>
    decreases |catalog|
  {
    if catalog == [] then [] else EntryPlan(v, spec, catalog[0]) + AllPlans(v, spec, catalog[1..])
  }

  /** Without failures the walk visits every entry and its result is every
      planned write stored in walk order. */
  lemma {:induction false} FailureFreeWalk(fails: set<string>, v: Variant, spec: ProjectSpec, files: map<string, Content>, catalog: seq<Entry>)
    requires NoFailures(fails, AllPlans(v, spec, catalog))
    ensures WalkFrom(fails, v, spec, Tree(files, Running), catalog) == Tree(Overlay(files, AllPlans(v, spec, catalog)), Running)
    decreases |catalog|
  {
    if catalog != [] {
      var plan, rest := EntryPlan(v, spec, catalog[0]), AllPlans(v, spec, catalog[1..]);
      NoFailuresSplit(fails, plan, rest);
      FailureFreeVisit(fails, v, spec, files, catalog[0]);
      FailureFreeWalk(fails, v, spec, Overlay(files, plan), catalog[1..]);
      OverlayAppend(files, plan, rest);
    }
  }

  /** A visit without failures stores the entry's writes and keeps running. */
  lemma FailureFreeVisit(fails: set<string>, v: Variant, spec: ProjectSpec, files: map<string, Content>, e: Entry)
    requires NoFailures(fails, EntryPlan(v, spec, e))
    ensures Visit(fails, v, spec, Tree(files, Running), e) == Tree(Overlay(files, EntryPlan(v, spec, e)), Running)
  {
    FailureFreeRun(fails, Exec(files, false, None), EntryPlan(v, spec, e));
  }

  /** Two write lists without failures are exactly a concatenation without. */
  lemma NoFailuresSplit(fails: set<string>, a: seq<Action>, b: seq<Action>)
    ensures NoFailures(fails, a + b) <==> NoFailures(fails, a) && NoFailures(fails, b)
  {
    assert forall k :: 0 <= k < |a| ==> (a + b)[k] == a[k];
    assert forall k :: 0 <= k < |b| ==> (a + b)[|a| + k] == b[k];
  }

  /** A failed render before the last one in a loop is lost: the callback
      returns no error, and the failed file is simply missing. */
  lemma EarlierRenderErrorLost(fails: set<string>, files: map<string, Content>, a: Action, b: Action)
    requires !a.fatal && !b.fatal && a.dest in fails && b.dest !in fails
    ensures RunFrom(fails, Exec(files, false, None), [a, b]) == Exec(files[b.dest := b.content], false, None)
  {
    assert [a, b][1..] == [b];
    RunOne(fails, Step(fails, Exec(files, false, None), a), b);
  }

  /** With only non-fatal writes, the callback's error is exactly whether
      the LAST write failed. */
  lemma {:induction false} LastRenderErrorWins(fails: set<string>, x: Exec, acts: seq<Action>)
    requires x.fatal == None && |acts| > 0
    requires forall k :: 0 <= k < |acts| ==> !acts[k].fatal
    ensures RunFrom(fails, x, acts).fatal == None
    ensures RunFrom(fails, x, acts).err <==> acts[|acts| - 1].dest in fails
    decreases |acts|
  {
    if |acts| > 1 {
      LastRenderErrorWins(fails, Step(fails, x, acts[0]), acts[1..]);
    }
  }

  /** A write step as evidently intended: an error, once seen, is kept. */
  function StickyStep(fails: set<string>, x: Exec, a: Action): Exec
  {
    if x.fatal.Some? then x
    else if a.dest in fails then Exec(x.files, true, if a.fatal then Some(a.dest) else None)
    else Exec(x.files[a.dest := a.content], x.err, None)
  }

  function RunSticky(fails: set<string>, x: Exec, acts: seq<Action>): Exec
    decreases |acts|
  {
    if acts == [] then x else RunSticky(fails, StickyStep(fails, x, acts[0]), acts[1..])
  }

  /** With the error kept, the callback reports an error exactly when some
      write failed, and the files written are the same as before. */
  lemma {:induction false} StickyRunReportsAnyFailure(fails: set<string>, x: Exec, acts: seq<Action>)
    requires x.fatal == None
    requires forall k :: 0 <= k < |acts| ==> !acts[k].fatal
    ensures RunSticky(fails, x, acts).fatal == None
    ensures RunSticky(fails, x, acts).err <==> x.err || exists k :: 0 <= k < |acts| && acts[k].dest in fails
    ensures RunSticky(fails, x, acts).files == RunFrom(fails, x, acts).files
    decreases |acts|
  {
    if acts != [] {
      var y, z := StickyStep(fails, x, acts[0]), Step(fails, x, acts[0]);
      StickyRunReportsAnyFailure(fails, y, acts[1..]);
      StickyRunReportsAnyFailure(fails, z, acts[1..]);
      assert y.files == z.files;
      SameFilesSameRun(fails, y, z, acts[1..]);
      if acts[0].dest in fails {
        assert acts[0].dest in fails;
      }
      assert forall k :: 1 <= k < |acts| ==> acts[1..][k - 1] == acts[k];
    }
  }

  /** The files a non-fatal run writes do not depend on the error flag it
      starts with. */
  lemma {:induction false} SameFilesSameRun(fails: set<string>, y: Exec, z: Exec, acts: seq<Action>)
    requires y.fatal == None && z.fatal == None && y.files == z.files
    requires forall k :: 0 <= k < |acts| ==> !acts[k].fatal
    ensures RunSticky(fails, y, acts).files == RunFrom(fails, z, acts).files
    decreases |acts|
  {
    if acts != [] {
      SameFilesSameRun(fails, StickyStep(fails, y, acts[0]), Step(fails, z, acts[0]), acts[1..]);
    }
  }

  /** Without failures, the placeholder directories each get an empty
      `.gitkeep`. */
  lemma {:induction false} PlaceholdersFailureFree(fails: set<string>, files: map<string, Content>, dirs: seq<string>)
    requires forall k :: 0 <= k < |dirs| ==> dirs[k] !in fails && KeepFile(dirs[k]) !in fails
    ensures MakeDirs(fails, Tree(files, Running), dirs).halt == Running
    ensures forall k :: 0 <= k < |dirs| ==>
              KeepFile(dirs[k]) in MakeDirs(fails, Tree(files, Running), dirs).files
              && MakeDirs(fails, Tree(files, Running), dirs).files[KeepFile(dirs[k])] == Bytes([])
    decreases |dirs|
  {
    if dirs != [] {
      var g := files[KeepFile(dirs[0]) := Bytes([])];
      PlaceholdersFailureFree(fails, g, dirs[1..]);
      PlaceholderKept(fails, g, dirs[1..], KeepFile(dirs[0]));
      assert forall k :: 1 <= k < |dirs| ==> dirs[1..][k - 1] == dirs[k];
    }
  }

  /** An empty `.gitkeep` already present stays. */
  lemma {:induction false} PlaceholderKept(fails: set<string>, files: map<string, Content>, dirs: seq<string>, keep: string)
    requires keep in files && files[keep] == Bytes([])
    ensures keep in MakeDirs(fails, Tree(files, Running), dirs).files
    ensures MakeDirs(fails, Tree(files, Running), dirs).files[keep] == Bytes([])
    decreases |dirs|
  {
    if dirs != [] && dirs[0] !in fails && KeepFile(dirs[0]) !in fails {
      PlaceholderKept(fails, files[KeepFile(dirs[0]) := Bytes([])], dirs[1..], keep);
    }
  }

  /** The models placeholder is `models` in `StartCmd` and `pkg/models` in
      `createCmd`; the other four are shared. */
  lemma ModelsDirByVariant(p: string)
    ensures EmptyDirs(Starter, p)[3] == Join([p, "models"])
    ensures EmptyDirs(Create, p)[3] == Join([p, "pkg", "models"])
    ensures forall k :: 0 <= k < 5 && k != 3 ==> EmptyDirs(Starter, p)[k] == EmptyDirs(Create, p)[k]
  {
  }

  /** An empty project name stops the run at the project directory, with
      nothing written. A name of white space only is such a name: the
      validator accepts it and trimming empties it. */
  lemma BlankNameStopsAtRoot(u: Unicode.UnicodeTables, pathExists: string -> bool, fails: set<string>, v: Variant,
                             catalog: seq<Entry>, files: map<string, Content>)
    requires !pathExists(" ")
    ensures NameRejection(u, pathExists, " ") == None
    ensures var spec := CollectAnswers(Answered(" "), Answered("false"), Interrupted).value;
            ScaffoldSpec(fails, v, spec, catalog, files) == Tree(files, RootFailed)
  {
    BlankNameAccepted(u, pathExists);
  }

  /** The project directory being populated. */
  class ProjectTree {
    var files: map<string, Content>
    const fails: set<string>

    constructor (existing: map<string, Content>, fails: set<string>)
      ensures files == existing && this.fails == fails
    {
      files := existing;
      this.fails := fails;
    }

    /** writeFile: stores the bytes at `path` unless creating it fails. */
    method WriteFile(path: string, data: seq<byte>) returns (ok: bool)
      modifies this
      ensures ok <==> path !in fails
      ensures files == if ok then old(files)[path := Bytes(data)] else old(files)
    {
      ok := path !in fails;
      if ok {
        files := files[path := Bytes(data)];
      }
    }

    /** renderTemplateFile: stores the template rendered with `context` at
        `dest` unless creating it fails. */
    method RenderTemplateFile(name: string, source: seq<byte>, dest: string, context: map<string, string>) returns (ok: bool)
      modifies this
      ensures ok <==> dest !in fails
      ensures files == if ok then old(files)[dest := Rendered(name, source, context)] else old(files)
    {
      ok := dest !in fails;
      if ok {
        files := files[dest := Rendered(name, source, context)];
      }
    }

    /** createEmptyDir: the directory and an empty `.gitkeep` in it. */
    method CreateEmptyDir(dir: string) returns (ok: bool)
      modifies this
      ensures ok <==> dir !in fails && KeepFile(dir) !in fails
      ensures files == if ok then old(files)[KeepFile(dir) := Bytes([])] else old(files)
    {
      if dir in fails {
        return false;
      }
      ok := WriteFile(KeepFile(dir), []);
    }

    /** The `user.api` case. */
    method VisitUserApi(spec: ProjectSpec, data: seq<byte>) returns (err: bool, fatal: Option<string>)
      modifies this
      ensures Exec(files, err, fatal) == RunFrom(fails, Exec(old(files), false, None), UserApiPlan(spec, data))
    {
      ghost var plan := UserApiPlan(spec, data);
      ghost var goal := RunFrom(fails, Exec(files, false, None), plan);
      var projectName, subDirs := spec.name, spec.subDirs;
      err, fatal := false, None;
      if spec.isMulti {
        for i := 0 to |subDirs|
          invariant !err
          invariant RunFrom(fails, Exec(files, err, None), plan[i..]) == goal
        {
          var targetPath := Join([projectName, "api", subDirs[i], "user.api"]);
          assert plan[i..][0] == plan[i] && plan[i..][1..] == plan[i + 1..];
          var ok := WriteFile(targetPath, data);
          if !ok {
            FatalIsFinal(fails, Exec(files, true, Some(targetPath)), plan[i + 1..]);
            return true, Some(targetPath);
          }
        }
        assert plan[|subDirs|..] == [];
      } else {
        var targetPath := Join([projectName, "api", "user.api"]);
        RunOne(fails, Exec(files, false, None), plan[0]);
        var ok := WriteFile(targetPath, data);
        if !ok {
          return true, Some(targetPath);
        }
      }
    }

    /** The `config.yaml` case. */
    method VisitConfig(spec: ProjectSpec, data: seq<byte>) returns (err: bool, fatal: Option<string>)
      modifies this
      ensures Exec(files, err, fatal) == RunFrom(fails, Exec(old(files), false, None), ConfigPlan(spec, data))
    {
      ghost var plan := ConfigPlan(spec, data);
      ghost var goal := RunFrom(fails, Exec(files, false, None), plan);
      var projectName, subDirs := spec.name, spec.subDirs;
      err, fatal := false, None;
      if spec.isMulti {
        for i := 0 to |subDirs|
          invariant !err
          invariant RunFrom(fails, Exec(files, err, None), plan[i..]) == goal
        {
          var name := subDirs[i] + ".yaml";
          var targetPath := Join([projectName, "configs", name]);
          assert plan[i..][0] == plan[i] && plan[i..][1..] == plan[i + 1..];
          var ok := WriteFile(targetPath, data);
          if !ok {
            FatalIsFinal(fails, Exec(files, true, Some(targetPath)), plan[i + 1..]);
            return true, Some(targetPath);
          }
        }
        assert plan[|subDirs|..] == [];
      } else {
        var targetPath := Join([projectName, "configs", "config.yaml"]);
        RunOne(fails, Exec(files, false, None), plan[0]);
        var ok := WriteFile(targetPath, data);
        if !ok {
          return true, Some(targetPath);
        }
      }
    }

    /** The `env` case, with its port counter. */
    method VisitEnv(spec: ProjectSpec, data: seq<byte>) returns (err: bool)
      modifies this
      ensures Exec(files, err, None) == RunFrom(fails, Exec(old(files), false, None), EnvPlan(spec, data))
    {
      ghost var plan := EnvPlan(spec, data);
      ghost var goal := RunFrom(fails, Exec(files, false, None), plan);
      var projectName, subDirs := spec.name, spec.subDirs;
      err := false;
      var port: nat := BasePort;
      if spec.isMulti {
        for i := 0 to |subDirs|
          invariant port == BasePort + i
          invariant RunFrom(fails, Exec(files, err, None), plan[i..]) == goal
        {
          var targetPath := Join([projectName, ".env." + subDirs[i]]);
          assert plan[i..][0] == plan[i] && plan[i..][1..] == plan[i + 1..];
          var ok := RenderTemplateFile("env", data, targetPath, EnvContext(projectName + "-" + subDirs[i], port));
          err := !ok;
          port := port + 1;
        }
        assert plan[|subDirs|..] == [];
      } else {
        var targetPath := Join([projectName, ".env"]);
        RunOne(fails, Exec(files, false, None), plan[0]);
        var ok := RenderTemplateFile("env", data, targetPath, EnvContext(projectName, port));
        err := !ok;
      }
    }

    /** The `gen.sh.template` case. */
    method VisitGenScript(spec: ProjectSpec, data: seq<byte>) returns (err: bool)
      modifies this
      ensures Exec(files, err, None) == RunFrom(fails, Exec(old(files), false, None), GenScriptPlan(spec, data))
    {
      ghost var plan := GenScriptPlan(spec, data);
      ghost var goal := RunFrom(fails, Exec(files, false, None), plan);
      var projectName, subDirs := spec.name, spec.subDirs;
      err := false;
      if spec.isMulti {
        for i := 0 to |subDirs|
          invariant RunFrom(fails, Exec(files, err, None), plan[i..]) == goal
        {
          var dir := subDirs[i];
          var targetPath := Join([projectName, "build", "scripts", "gen_" + dir + ".sh"]);
          assert plan[i..][0] == plan[i] && plan[i..][1..] == plan[i + 1..];
          var ok := RenderTemplateFile("gen.sh.template", data, targetPath,
                                       GenContext(dir, SubMainPath(dir), SubConfigPath(dir), SubEnvPath(dir)));
          err := !ok;
        }
        assert plan[|subDirs|..] == [];
      } else {
        var targetPath := Join([projectName, "build", "scripts", "gen_server.sh"]);
        RunOne(fails, Exec(files, false, None), plan[0]);
        var ok := RenderTemplateFile("gen.sh.template", data, targetPath,
                                     GenContext("server", "./cmd/server/main.go", "./configs/config.yaml", ".env"));
        err := !ok;
      }
    }

    /** The `start.sh.template` case. */
    method VisitStartScript(spec: ProjectSpec, data: seq<byte>) returns (err: bool)
      modifies this
      ensures Exec(files, err, None) == RunFrom(fails, Exec(old(files), false, None), StartScriptPlan(spec, data))
    {
      ghost var plan := StartScriptPlan(spec, data);
      ghost var goal := RunFrom(fails, Exec(files, false, None), plan);
      var projectName, subDirs := spec.name, spec.subDirs;
      err := false;
      if spec.isMulti {
        for i := 0 to |subDirs|
          invariant RunFrom(fails, Exec(files, err, None), plan[i..]) == goal
        {
          var dir := subDirs[i];
          var targetPath := Join([projectName, "build", "scripts", "start_" + dir + ".sh"]);
          assert plan[i..][0] == plan[i] && plan[i..][1..] == plan[i + 1..];
          var ok := RenderTemplateFile("start.sh.template", data, targetPath,
                                       StartContext(dir, SubMainPath(dir), SubConfigPath(dir), SubEnvPath(dir)));
          err := !ok;
        }
        assert plan[|subDirs|..] == [];
      } else {
        var targetPath := Join([projectName, "build", "scripts", "start_server.sh"]);
        RunOne(fails, Exec(files, false, None), plan[0]);
        var ok := RenderTemplateFile("start.sh.template", data, targetPath,
                                     StartContext("server", "./cmd/server/main.go", "./configs/config.yaml", ".env"));
        err := !ok;
      }
    }

    /** The WalkDir callback on one entry: the switch on the base name.
        Returns the callback's `err` and the path of a fatal failure, if one
        happened. */
    method VisitEntry(v: Variant, spec: ProjectSpec, e: Entry) returns (err: bool, fatal: Option<string>)
      modifies this
      ensures Exec(files, err, fatal) == RunFrom(fails, Exec(old(files), false, None), EntryPlan(v, spec, e))
    {
      err, fatal := false, None;
      if e.isDir {
        return;
      }
      var baseName := Base(e.path);
      match baseName {
        case "user.api" =>
          err, fatal := VisitUserApi(spec, e.data);
        case "config.yaml" =>
          err, fatal := VisitConfig(spec, e.data);
        case "env" =>
          err := VisitEnv(spec, e.data);
        case "gen.sh.template" =>
          err := VisitGenScript(spec, e.data);
        case "start.sh.template" =>
          err := VisitStartScript(spec, e.data);
        case _ =>
          var target := CopyTarget(v, spec, baseName);
          if target.Some? {
            RunOne(fails, Exec(files, false, None), Action(target.value, Bytes(e.data), false));
            var ok := WriteFile(target.value, e.data);
            err := !ok;
          }
      }
    }

    /** fs.WalkDir over the catalog: the callback on each entry in order;
        a fatal write ends the run, and an error the callback returns stops
        the walk (and then the run). */
    method MaterializeTemplates(v: Variant, spec: ProjectSpec, catalog: seq<Entry>) returns (halt: Halt)
      modifies this
      ensures Tree(files, halt) == WalkFrom(fails, v, spec, Tree(old(files), Running), catalog)
      ensures halt.Running? || halt.WriteFatal? || halt.WalkFailed?
    {
      ghost var goal := WalkFrom(fails, v, spec, Tree(files, Running), catalog);
      for i := 0 to |catalog|
        invariant WalkFrom(fails, v, spec, Tree(files, Running), catalog[i..]) == goal
      {
        assert catalog[i..][0] == catalog[i] && catalog[i..][1..] == catalog[i + 1..];
        var err, fatal := VisitEntry(v, spec, catalog[i]);
        if fatal.Some? {
          HaltIsFinal(fails, v, spec, Tree(files, WriteFatal(fatal.value)), catalog[i + 1..]);
          return WriteFatal(fatal.value);
        }
        if err {
          HaltIsFinal(fails, v, spec, Tree(files, WalkFailed(catalog[i].path)), catalog[i + 1..]);
          return WalkFailed(catalog[i].path);
        }
      }
      assert catalog[|catalog|..] == [];
      return Running;
    }

    /** The five createEmptyDir calls, each fatal on failure. */
    method CreatePlaceholders(v: Variant, projectName: string) returns (halt: Halt)
      modifies this
      ensures Tree(files, halt) == MakeDirs(fails, Tree(old(files), Running), EmptyDirs(v, projectName))
    {
      var dirs := EmptyDirs(v, projectName);
      MakeDirsStep(fails, files, dirs);
      var ok := CreateEmptyDir(dirs[0]);
      if !ok {
        return DirFailed(dirs[0]);
      }
      MakeDirsStep(fails, files, dirs[1..]);
      ok := CreateEmptyDir(dirs[1]);
      if !ok {
        return DirFailed(dirs[1]);
      }
      assert dirs[1..][1..] == dirs[2..];
      MakeDirsStep(fails, files, dirs[2..]);
      ok := CreateEmptyDir(dirs[2]);
      if !ok {
        return DirFailed(dirs[2]);
      }
      assert dirs[2..][1..] == dirs[3..];
      MakeDirsStep(fails, files, dirs[3..]);
      ok := CreateEmptyDir(dirs[3]);
      if !ok {
        return DirFailed(dirs[3]);
      }
      assert dirs[3..][1..] == dirs[4..];
      MakeDirsStep(fails, files, dirs[4..]);
      ok := CreateEmptyDir(dirs[4]);
      if !ok {
        return DirFailed(dirs[4]);
      }
      assert dirs[4..][1..] == [];
      return Running;
    }

    /** The file-system phase of `StartCmd`/`createCmd`: the project directory,
        the five placeholder directories, then the template walk. */
    method Scaffold(v: Variant, spec: ProjectSpec, catalog: seq<Entry>) returns (halt: Halt)
      modifies this
      ensures Tree(files, halt) == ScaffoldSpec(fails, v, spec, catalog, old(files))
    {
      var projectName := spec.name;
      if projectName == [] || projectName in fails {
        return RootFailed;
      }
      halt := CreatePlaceholders(v, projectName);
      if halt != Running {
        return;
      }
      halt := MaterializeTemplates(v, spec, catalog);
    }
  }
}
