/**
 * The input phase of `StartCmd` (internal/gooze-starter/start.go:47-124 and its
 * twin cmd/create.go:46-123): the two validators attached to the prompts,
 * and how the answers become the project name, the mode and the list of
 * sub-service directories.
 *
 * The prompts themselves are not modelled: each answer is an input. The
 * prompt library re-asks until its validator passes, so an `Answered` text
 * is one the validator accepted; the lemmas take that as a hypothesis.
 */
module Collect {
  import opened Options
  import opened Unicode
  import opened NameCheck
  import opened Paths

  /** What one survey prompt gives back: the answer, the interrupt error,
      or some other error, which the code ignores (the variable keeps its
      zero value ""). */
  datatype Prompt = Answered(text: string) | Interrupted | Failed

  /** Why a validator rejected an answer. */
  datatype Rejection =
    | Required              // survey.Required: the answer is ""
    | BadFormat             // the `len(nameArr) < 1` branch
    | IllegalChar(c: string) // FirstIllegalChar found this code point
    | AlreadyExists         // os.Stat found a path of that name

  /** The project name, mode and sub-service directories, as the rest of
      `StartCmd` uses them. */
  datatype ProjectSpec = ProjectSpec(name: string, isMulti: bool, subDirs: seq<string>)

  /** The project-name validator, as written: survey.Required, then
      FirstIllegalChar, then os.Stat on the answer as typed. `pathExists` is the
      file system's answer to os.Stat. */
  function NameRejection(u: UnicodeTables, pathExists: string -> bool, name: string): (r: Option<Rejection>)
    ensures r == None <==> name != [] && FirstIllegalChar(u, name) == [] && !pathExists(name)
    ensures r.Some? && r.value.IllegalChar? ==> r.value.c == FirstIllegalChar(u, name) && r.value.c != []
  {
    if name == [] then Some(Required)
    else if FirstIllegalChar(u, name) != [] then Some(IllegalChar(FirstIllegalChar(u, name)))
    else if pathExists(name) then Some(AlreadyExists)
    else None
  }

  /** Every piece passes FirstIllegalChar. */
  predicate AllPiecesPass(u: UnicodeTables, pieces: seq<string>) {
    forall i :: 0 <= i < |pieces| ==> FirstIllegalChar(u, pieces[i]) == []
  }

  /** The loop of the sub-directory validator: the first piece that
      FirstIllegalChar rejects decides the message. */
  function FirstBadPiece(u: UnicodeTables, pieces: seq<string>): (r: string)
    ensures r == [] <==> AllPiecesPass(u, pieces)
    ensures r != [] ==> exists k :: 0 <= k < |pieces| && r == FirstIllegalChar(u, pieces[k])
                                 && forall i :: 0 <= i < k ==> FirstIllegalChar(u, pieces[i]) == []
  {
    if pieces == [] then []
    else if FirstIllegalChar(u, pieces[0]) != [] then FirstIllegalChar(u, pieces[0])
    else
      var r := FirstBadPiece(u, pieces[1..]);
      PiecesShift(s => FirstIllegalChar(u, s), pieces, r);
      r
  }

  /** The step of the loop, for any message function `f`: when the first
      piece passes, what holds of the rest holds of all of them. */
  lemma PiecesShift(f: string -> string, pieces: seq<string>, r: string)
    requires pieces != [] && f(pieces[0]) == []
    requires r == [] <==> forall i :: 0 <= i < |pieces[1..]| ==> f(pieces[1..][i]) == []
    requires r != [] ==> exists k :: 0 <= k < |pieces[1..]| && r == f(pieces[1..][k])
                                  && forall i :: 0 <= i < k ==> f(pieces[1..][i]) == []
    ensures r == [] <==> forall i :: 0 <= i < |pieces| ==> f(pieces[i]) == []
    ensures r != [] ==> exists k :: 0 <= k < |pieces| && r == f(pieces[k])
                                 && forall i :: 0 <= i < k ==> f(pieces[i]) == []
  {
    if r != [] {
      var k :| 0 <= k < |pieces[1..]| && r == f(pieces[1..][k])
               && forall i :: 0 <= i < k ==> f(pieces[1..][i]) == [];
      assert pieces[1..][k] == pieces[k + 1];
      forall i | 1 <= i < k + 1 ensures f(pieces[i]) == [] {
        assert pieces[1..][i - 1] == pieces[i];
      }
    } else {
      forall i | 1 <= i < |pieces| ensures f(pieces[i]) == [] {
        assert pieces[1..][i - 1] == pieces[i];
      }
    }
  }

  /** The sub-directory validator: survey.Required, then split on "-",
      then every piece through FirstIllegalChar. */
  function SubDirRejection(u: UnicodeTables, answer: string): (r: Option<Rejection>)
    ensures r == None <==> answer != [] && AllPiecesPass(u, Split(answer, '-'))
    ensures r.Some? && r.value.IllegalChar? ==>
              exists k :: 0 <= k < |Split(answer, '-')| && r.value.c == FirstIllegalChar(u, Split(answer, '-')[k]) != []
                          && forall i :: 0 <= i < k ==> FirstIllegalChar(u, Split(answer, '-')[i]) == []
  {
    if answer == [] then Some(Required)
    else
      var nameArr := Split(answer, '-');
      var bad := FirstBadPiece(u, nameArr);
      if |nameArr| < 1 then Some(BadFormat)
      else if bad != [] then Some(IllegalChar(bad))
      else None
  }

  /** How the answers become a ProjectSpec; None when a prompt was
      interrupted. The name is the answer with white space trimmed; the
      sub-service directories are the untrimmed pieces of the answer. */
  function CollectAnswers(name: Prompt, multi: Prompt, subDirs: Prompt): (r: Option<ProjectSpec>)
    ensures r.Some? ==> r.value.isMulti == (multi == Answered("true"))
    ensures r.Some? && r.value.isMulti ==> subDirs.Answered? ==> r.value.subDirs == Split(subDirs.text, '-')
    ensures r.Some? && !r.value.isMulti ==> r.value.subDirs == []
    ensures r.Some? ==> r.value.name == TrimSpace(if name.Answered? then name.text else [])
    ensures r.None? <==> name.Interrupted? || multi.Interrupted? || (multi == Answered("true") && subDirs.Interrupted?)
  {
    if name.Interrupted? || multi.Interrupted? then None
    else
      var needManyDir := if multi.Answered? then multi.text else [];
      var isMulti := needManyDir == "true";
      if isMulti && subDirs.Interrupted? then None
      else
        var dirs := if !isMulti then [] else Split(if subDirs.Answered? then subDirs.text else [], '-');
        var projectName := if name.Answered? then name.text else [];
        Some(ProjectSpec(TrimSpace(projectName), isMulti, dirs))
  }

  // ---------------------------------------------------------------------
  // Properties

  /** A project name is accepted exactly when it is non-empty, its trimmed
      form consists of ASCII letters, digits, `-` and `_`, and no path of
      that (untrimmed) name exists. */
  lemma NameAcceptedIff(u: UnicodeTables, pathExists: string -> bool, name: string)
    requires Sound(u)
    ensures NameRejection(u, pathExists, name) == None
        <==> name != [] && !pathExists(name)
             && forall i :: 0 <= i < |TrimSpace(name)| ==> IsIdentChar(TrimSpace(name)[i])
  {
    FirstIllegalCharEmptyIff(u, name);
  }

  /** The sub-directory answer is accepted exactly when it is non-empty and
      every "-"-separated piece passes FirstIllegalChar; the format error is
      never reported, because a split always has at least one piece. */
  lemma SubDirFormatErrorUnreachable(u: UnicodeTables, answer: string)
    ensures SubDirRejection(u, answer) != Some(BadFormat)
  {
  }

  /** Empty pieces pass: "a--b" is accepted and yields three directories,
      the middle one empty. */
  lemma EmptyPieceAccepted(u: UnicodeTables)
    requires Sound(u)
    ensures SubDirRejection(u, "a--b") == None
    ensures CollectAnswers(Answered("p"), Answered("true"), Answered("a--b")).value.subDirs == ["a", "", "b"]
  {
    SplitKeepsEmptyPieces();
    IdentifierPiecesPass(u, ["a", "", "b"]);
  }

  /** Pieces made of identifier characters all pass. */
  lemma IdentifierPiecesPass(u: UnicodeTables, pieces: seq<string>)
    requires Sound(u)
    requires forall i :: 0 <= i < |pieces| ==> forall k :: 0 <= k < |pieces[i]| ==> IsIdentChar(pieces[i][k])
    ensures AllPiecesPass(u, pieces)
  {
    forall i | 0 <= i < |pieces| ensures FirstIllegalChar(u, pieces[i]) == [] {
      IdentifierPasses(u, pieces[i]);
    }
  }

  /** The directories `dirs` are the pieces of `answer`: at least one,
      none containing "-", joined back they give the answer, and each one
      trims to an identifier. */
  predicate PiecesOfAnswer(dirs: seq<string>, answer: string)
  {
    && |dirs| >= 1
    && JoinWith(dirs, '-') == answer
    && forall i :: 0 <= i < |dirs| ==>
         '-' !in dirs[i]
         && forall k :: 0 <= k < |TrimSpace(dirs[i])| ==> IsIdentChar(TrimSpace(dirs[i])[k])
  }

  /** With an accepted sub-directory answer, the collected directories are
      the pieces of the answer. */
  lemma CollectedSubDirs(u: UnicodeTables, name: Prompt, answer: string)
    requires Sound(u)
    requires !name.Interrupted?
    requires SubDirRejection(u, answer) == None
    ensures var r := CollectAnswers(name, Answered("true"), Answered(answer));
            r.Some? && r.value.isMulti && PiecesOfAnswer(r.value.subDirs, answer)
  {
    var r := CollectAnswers(name, Answered("true"), Answered(answer));
    assert r.Some? && r.value.isMulti && r.value.subDirs == Split(answer, '-');
    AcceptedAnswerPieces(u, answer);
  }

  /** The split of an accepted sub-directory answer is made of its pieces. */
  lemma AcceptedAnswerPieces(u: UnicodeTables, answer: string)
    requires Sound(u)
    requires SubDirRejection(u, answer) == None
    ensures PiecesOfAnswer(Split(answer, '-'), answer)
  {
    JoinSplit(answer, '-');
    PassingPiecesAreIdentifiers(u, Split(answer, '-'));
  }

  /** Pieces that pass FirstIllegalChar trim to identifiers. */
  lemma PassingPiecesAreIdentifiers(u: UnicodeTables, pieces: seq<string>)
    requires Sound(u) && AllPiecesPass(u, pieces)
    ensures forall i :: 0 <= i < |pieces| ==>
              forall k :: 0 <= k < |TrimSpace(pieces[i])| ==> IsIdentChar(TrimSpace(pieces[i])[k])
  {
    forall i | 0 <= i < |pieces|
      ensures forall k :: 0 <= k < |TrimSpace(pieces[i])| ==> IsIdentChar(TrimSpace(pieces[i])[k])
    {
      FirstIllegalCharEmptyIff(u, pieces[i]);
    }
  }

  /** The name used afterwards is the trimmed answer, which is a string of
      identifier characters without white space at its ends. */
  lemma CollectedNameIsIdentifier(u: UnicodeTables, pathExists: string -> bool, name: string, multi: Prompt, subDirs: Prompt)
    requires Sound(u)
    requires NameRejection(u, pathExists, name) == None
    requires !multi.Interrupted? && !(multi == Answered("true") && subDirs.Interrupted?)
    ensures var r := CollectAnswers(Answered(name), multi, subDirs);
            && r.Some? && r.value.name == TrimSpace(name)
            && forall i :: 0 <= i < |r.value.name| ==> IsIdentChar(r.value.name[i]) && !IsSpace(r.value.name[i])
  {
    FirstIllegalCharEmptyIff(u, name);
  }

  /** A name of white space only passes the validator, and the project
      name it yields is empty. */
  lemma BlankNameAccepted(u: UnicodeTables, pathExists: string -> bool)
    requires !pathExists(" ")
    ensures NameRejection(u, pathExists, " ") == None
    ensures CollectAnswers(Answered(" "), Answered("false"), Interrupted) == Some(ProjectSpec("", false, []))
  {
    TrimSpaceOfBlank(" ");
  }

  /** The existence check looks at the answer as typed, but the project is
      created under the trimmed name: when "demo" exists and " demo" does
      not, the answer " demo" is accepted and the project name is "demo". */
  lemma UntrimmedExistenceCheck(u: UnicodeTables, pathExists: string -> bool, name: string)
    requires Sound(u)
    requires name != [] && forall i :: 0 <= i < |name| ==> IsIdentChar(name[i])
    requires pathExists(name) && !pathExists(" " + name)
    ensures NameRejection(u, pathExists, " " + name) == None
    ensures CollectAnswers(Answered(" " + name), Answered("false"), Interrupted).value.name == name
  {
    assert Trimmed(name);
    TrimSpaceOfTrimmed(name);
    TrimSpaceIgnoresPadding(" ", name, "");
    assert " " + name + "" == " " + name;
    IdentifierPasses(u, name);
  }

  /** The validator as it is evidently meant: the existence check and the
      emptiness check apply to the trimmed name, the one that is created. */
  function NameRejectionTrimmed(u: UnicodeTables, pathExists: string -> bool, name: string): (r: Option<Rejection>)
    ensures r == None <==> TrimSpace(name) != [] && FirstIllegalChar(u, name) == [] && !pathExists(TrimSpace(name))
  {
    if TrimSpace(name) == [] then Some(Required)
    else if FirstIllegalChar(u, name) != [] then Some(IllegalChar(FirstIllegalChar(u, name)))
    else if pathExists(TrimSpace(name)) then Some(AlreadyExists)
    else None
  }

  /** With the trimmed check, an accepted name never names an existing
      path and is never empty. */
  lemma TrimmedCheckProtectsExisting(u: UnicodeTables, pathExists: string -> bool, name: string, multi: Prompt, subDirs: Prompt)
    requires NameRejectionTrimmed(u, pathExists, name) == None
    requires !multi.Interrupted? && !(multi == Answered("true") && subDirs.Interrupted?)
    ensures var r := CollectAnswers(Answered(name), multi, subDirs);
            r.Some? && r.value.name != [] && !pathExists(r.value.name)
  {
  }
}
