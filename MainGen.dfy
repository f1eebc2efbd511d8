/**
 * genMain (cmd/genmain.go): the entry point `<target>/main.go` rendered from
 * one fixed template whose only variable part is an optional blank import
 * of the bootstrap package. The genMain that internal/gooze-starter/start.go
 * calls is not part of this model; it is taken to be this same function.
 *
 * The template is kept as a small syntax tree with just the three actions
 * it uses (text, `{{if .F}}...{{end}}`, `{{.F}}`), executed against the
 * data genMain passes: a one-entry map, or nil.
 */
module MainGen {
  import opened Options
  import opened Paths

  /** One action of a text/template template. */
  datatype Node =
    | Text(text: string)
    | IfField(field: string, body: seq<Node>)
    | Field(field: string)

  /** The data a template is executed with: nil, or a string map. A field
      that is missing, or looked up in nil data, is empty here. That is how
      `{{if}}` treats it (false); printed by `{{.F}}` the engine would write
      `<no value>` instead, but this template prints its field only inside
      the `{{if}}` on that same field, where it is present. */
  function Lookup(data: Option<map<string, string>>, field: string): (v: string)
    ensures v != [] ==> data.Some? && field in data.value && v == data.value[field]
  {
    if data.Some? && field in data.value then data.value[field] else []
  }

  /** Template execution: text is copied, a field is replaced by its value,
      an `if` keeps its body exactly when the field's value is non-empty. */
  function Execute(t: seq<Node>, data: Option<map<string, string>>): string
    decreases t
  {
    if t == [] then []
    else
      var head :=
        match t[0]
        case Text(s) => s
        case Field(f) => Lookup(data, f)
        case IfField(f, body) => if Lookup(data, f) != [] then Execute(body, data) else [];
      head + Execute(t[1..], data)
  }

  /** The import path of the bootstrap package, quoted. */
  const GoozeImport: string := "\"github.com/" + "soryetong/" + "gooze-starter/" + "gooze\""

  /** The template text before `{{if .ServerPath}}`. */
  const MainHead: string := "\npackage main\n\nimport (\n\t" + GoozeImport + "\n\n\t"

  /** The template text after `{{end}}`. */
  const MainTail: string := "\n)\n\nfunc main() {\n\tgooze.Run()\n}\n"

  /** The body of the template's `{{if .ServerPath}}`. */
  const ImportBody: seq<Node> := [Text("_ \""), Field("ServerPath"), Text("\" ")]

  /** mainContentTemplate. */
  const MainTemplate: seq<Node> := [Text(MainHead), IfField("ServerPath", ImportBody), Text(MainTail)]

  /** The data genMain executes the template with: a map holding the
      server path when it is non-empty, nil otherwise. */
  function MainData(serverPath: string): Option<map<string, string>>
  {
    if serverPath != [] then Some(map["ServerPath" := serverPath]) else None
  }

  /** The text genMain renders for `serverPath` (before gofmt). */
  function MainSource(serverPath: string): string
  {
    Execute(MainTemplate, MainData(serverPath))
  }

  /** The blank-import slot: `_ "<serverPath>" ` or nothing. */
  function ImportSlot(serverPath: string): string
  {
    if serverPath != [] then "_ \"" + serverPath + "\" " else []
  }

  /** The rendered text is the fixed head, the slot, and the fixed tail. */
  lemma MainSourceShape(serverPath: string)
    ensures MainSource(serverPath) == MainHead + ImportSlot(serverPath) + MainTail
  {
    var data := MainData(serverPath);
    assert Lookup(data, "ServerPath") == serverPath;
    ExecuteTextFieldText("_ \"", "ServerPath", "\" ", data);
    ExecuteTextIfText(MainHead, "ServerPath", ImportBody, MainTail, data);
  }

  /** A field between two texts renders as the field's value between them. */
  lemma ExecuteTextFieldText(a: string, f: string, b: string, data: Option<map<string, string>>)
    ensures Execute([Text(a), Field(f), Text(b)], data) == a + Lookup(data, f) + b
  {
    assert [Text(a), Field(f), Text(b)][1..] == [Field(f), Text(b)];
    assert [Field(f), Text(b)][1..] == [Text(b)];
    assert [Text(b)][1..] == [];
    assert Execute([Text(b)], data) == b;
    assert Execute([Field(f), Text(b)], data) == Lookup(data, f) + b;
  }

  /** An `if` between two texts renders its body between them exactly when
      its field's value is non-empty. */
  lemma ExecuteTextIfText(a: string, f: string, body: seq<Node>, b: string, data: Option<map<string, string>>)
    ensures Execute([Text(a), IfField(f, body), Text(b)], data)
         == a + (if Lookup(data, f) != [] then Execute(body, data) else []) + b
  {
    assert [Text(a), IfField(f, body), Text(b)][1..] == [IfField(f, body), Text(b)];
    assert [IfField(f, body), Text(b)][1..] == [Text(b)];
    assert [Text(b)][1..] == [];
    assert Execute([Text(b)], data) == b;
    assert Execute([IfField(f, body), Text(b)], data) == (if Lookup(data, f) != [] then Execute(body, data) else []) + b;
  }

  /** Without a server path the text has no `_` at all, so no blank import. */
  lemma StubHasNoBlankImport()
    ensures '_' !in MainSource([])
  {
    MainSourceShape([]);
    assert MainSource([]) == MainHead + MainTail;
    NoUnderscoreInFixedText();
  }

  lemma NoUnderscoreInFixedText()
    ensures '_' !in MainHead + MainTail
  {
    NoUnderscoreInImport();
    assert '_' !in MainHead;
    NoUnderscoreInTail();
  }

  lemma NoUnderscoreInImport()
    ensures '_' !in GoozeImport
  {
    assert '_' !in "\"github.com/" && '_' !in "soryetong/";
    assert '_' !in "gooze-starter/" && '_' !in "gooze\"";
  }

  lemma NoUnderscoreInTail()
    ensures '_' !in MainTail
  {
  }

  /** With a server path, the import block holds `_ "<serverPath>"` right
      after the fixed head. */
  lemma FinalHasBlankImport(serverPath: string)
    requires serverPath != []
    ensures var src := MainSource(serverPath);
            |src| >= |MainHead| + |serverPath| + 4
            && src[|MainHead|..|MainHead| + |serverPath| + 4] == "_ \"" + serverPath + "\""
  {
    MainSourceShape(serverPath);
    var src := MainSource(serverPath);
    assert src == MainHead + ("_ \"" + serverPath + "\"") + (" " + MainTail);
  }

  /** The stub and the final render agree everywhere except at the slot:
      any render is the stub with the slot inserted after the head. */
  lemma RendersDifferOnlyInSlot(serverPath: string)
    ensures MainSource(serverPath)
         == MainSource([])[..|MainHead|] + ImportSlot(serverPath) + MainSource([])[|MainHead|..]
  {
    MainSourceShape(serverPath);
    MainSourceShape([]);
    assert MainSource([]) == MainHead + MainTail;
    assert MainSource([])[..|MainHead|] == MainHead;
    assert MainSource([])[|MainHead|..] == MainTail;
  }

  /** What can go wrong in genMain: executing the template, writing the
      file, or running gofmt on it. */
  datatype GenMainFaults = GenMainFaults(execFails: bool, writeFails: bool, gofmtFails: bool)

  /** What one genMain call did: the file it wrote (path and text), whether
      it ran `gofmt -w` on it, and whether it returned an error. */
  datatype GenMainResult = GenMainResult(written: Option<(string, string)>, formatted: bool, failed: bool)

  /** genMain(targetPath, serverPath). A failed template execution returns
      `err`, the (nil) parse error, so it is reported as success with no
      file written. */
  function GenMain(targetPath: string, serverPath: string, faults: GenMainFaults): (r: GenMainResult)
    ensures r.written.Some? ==>
              r.written.value.0 == Join([targetPath, "main.go"])
              && r.written.value.1 == MainHead + ImportSlot(serverPath) + MainTail
    ensures r.written.Some? <==> !faults.execFails && !faults.writeFails
    ensures r.failed <==> !faults.execFails && (faults.writeFails || faults.gofmtFails)
  {
    MainSourceShape(serverPath);
    if faults.execFails then GenMainResult(None, false, false)
    else if faults.writeFails then GenMainResult(None, false, true)
    else GenMainResult(Some((Join([targetPath, "main.go"]), MainSource(serverPath))), true, faults.gofmtFails)
  }

  /** A template-execution failure is swallowed: genMain reports success
      and writes nothing. */
  lemma ExecFailureReportsSuccess(targetPath: string, serverPath: string, faults: GenMainFaults)
    requires faults.execFails
    ensures !GenMain(targetPath, serverPath, faults).failed
    ensures GenMain(targetPath, serverPath, faults).written == None
  {
  }

  /** genMain as evidently intended: a failed template execution is
      reported as the failure it is. Everything else is unchanged. */
  function GenMainChecked(targetPath: string, serverPath: string, faults: GenMainFaults): (r: GenMainResult)
    ensures r.failed <==> faults.execFails || faults.writeFails || faults.gofmtFails
    ensures r.written.Some? <==> !faults.execFails && !faults.writeFails
    ensures r.written.Some? ==> r.written.value.1 == MainHead + ImportSlot(serverPath) + MainTail
  {
    var g := GenMain(targetPath, serverPath, faults);
    GenMainResult(g.written, g.formatted, faults.execFails || g.failed)
  }

  /** With the correction, genMain reports success exactly when the file
      was written and formatted. */
  lemma CheckedSuccessMeansWritten(targetPath: string, serverPath: string, faults: GenMainFaults)
    ensures var r := GenMainChecked(targetPath, serverPath, faults);
            !r.failed <==> r.written.Some? && r.written.value.0 == Join([targetPath, "main.go"]) && !faults.gofmtFails
  {
  }
}
