/**
 * What each visit does to the visitor's state, as functions on a snapshot of
 * that state, and what a whole traversal produces.
 *
 * A `Model` is the triple (workspaceModel, bazelModel, repositories). A visit
 * either completes or aborts with a semantic error: a `maven` repository entry
 * without a URL literal makes the visitor dereference a missing token, and the
 * exception leaves every enclosing visit at once. The state reached at that
 * point is kept in the `Run`.
 */
module Translation {
  import opened Wrappers
  import opened GradleAst
  import opened Literals
  import opened RepositorySet
  import opened BazelText

  datatype Model = Model(workspace: string, build: string, repositories: seq<string>)

  datatype SemanticError = MissingRepositoryUrl

  datatype Outcome = Completed | Failed(error: SemanticError)

  datatype Run = Run(model: Model, outcome: Outcome)

  /** The state of a freshly constructed visitor. */
  const Initial: Model := Model(Preamble, "", [])

  const MavenCentralUrl: string := "https://repo1.maven.org/maven2"
  const JCenterUrl: string := "https://jcenter.bintray.com/"

  // ---------------------------------------------------------------- repositories

  /**
   * The URL a repository entry contributes: the two well-known URLs, the
   * unquoted literal of a `maven` entry, nothing for any other entry, and an
   * error for a `maven` entry that has no literal.
   */
  function RepositoryUrl(e: RepositoryEntry): (r: Result<Option<string>, SemanticError>)
    ensures r.Failure? <==> e == Maven(None)
    ensures r == Success(None) <==> e == Other
  {
    match e
    case MavenCentral => Success(Some(MavenCentralUrl))
    case JCenter => Success(Some(JCenterUrl))
    case Maven(url) =>
      if url.Some? then Success(Some(TrimQuotes(url.value))) else Failure(MissingRepositoryUrl)
    case Other => Success(None)
  }

  /** `visitRepositoryEntry`: add the entry's URL to the set, if it has one. */
  function RepositoryEntryStep(m: Model, e: RepositoryEntry): (run: Run)
    ensures run.model.workspace == m.workspace && run.model.build == m.build
    ensures run.outcome.Failed? <==> e == Maven(None)
    ensures NoDuplicates(m.repositories) ==> NoDuplicates(run.model.repositories)
  {
    match RepositoryUrl(e)
    case Failure(err) => Run(m, Failed(err))
    case Success(None) => Run(m, Completed)
    case Success(Some(url)) => Run(m.(repositories := Add(m.repositories, url)), Completed)
  }

  /** Visiting the entries in order, stopping at the first error. */
  function RepositoryEntriesStep(m: Model, es: seq<RepositoryEntry>): (run: Run)
    ensures run.model.workspace == m.workspace && run.model.build == m.build
    ensures NoDuplicates(m.repositories) ==> NoDuplicates(run.model.repositories)
  {
    if es == [] then Run(m, Completed)
    else
      var prior := RepositoryEntriesStep(m, es[..|es| - 1]);
      if prior.outcome.Failed? then prior else RepositoryEntryStep(prior.model, es[|es| - 1])
  }

  /**
   * `visitRepositoriesDeclaration`: the inherited visit of the children, then
   * the explicit `forEach` over the same entries.
   */
  function RepositoriesDeclarationStep(m: Model, es: seq<RepositoryEntry>): Run {
    var first := RepositoryEntriesStep(m, es);
    if first.outcome.Failed? then first else RepositoryEntriesStep(first.model, es)
  }

  /** The URLs the entries contribute, in order, repeats included. */
  function EntryUrls(es: seq<RepositoryEntry>): seq<string> {
    if es == [] then []
    else
      EntryUrls(es[..|es| - 1]) +
      match RepositoryUrl(es[|es| - 1])
      case Success(Some(url)) => [url]
      case _ => []
  }

  lemma {:induction false} EntryUrlsConcat(a: seq<RepositoryEntry>, b: seq<RepositoryEntry>)
    ensures EntryUrls(a + b) == EntryUrls(a) + EntryUrls(b)
  {
    if b != [] {
      assert (a + b)[..|a + b| - 1] == a + b[..|b| - 1];
      assert (a + b)[|a + b| - 1] == b[|b| - 1];
      EntryUrlsConcat(a, b[..|b| - 1]);
    } else {
      assert a + b == a;
    }
  }

  /**
   * Visiting a list of entries fails exactly when one of them is a `maven`
   * entry without a URL; otherwise it adds the entries' URLs in order and
   * touches nothing else.
   */
  lemma {:induction false} RepositoryEntriesClosedForm(m: Model, es: seq<RepositoryEntry>)
    ensures var run := RepositoryEntriesStep(m, es);
            run.outcome == (if Maven(None) in es then Failed(MissingRepositoryUrl) else Completed) &&
            (run.outcome.Completed? ==>
               run.model == m.(repositories := AddAll(m.repositories, EntryUrls(es))))
  {
    if es != [] {
      var front := es[..|es| - 1];
      var last := es[|es| - 1];
      assert es == front + [last];
      RepositoryEntriesClosedForm(m, front);
      var prior := RepositoryEntriesStep(m, front);
      if prior.outcome.Completed? {
        var before := EntryUrls(front);
        match RepositoryUrl(last)
        case Success(Some(url)) =>
          assert EntryUrls(es) == before + [url];
          assert (before + [url])[..|before|] == before;
        case Success(None) =>
          assert EntryUrls(es) == before + [];
          assert before + [] == before;
        case Failure(_) =>
      }
    }
  }

  /** Once a prefix of the entries has failed, the rest are never visited. */
  lemma {:induction false} RepositoryEntriesFailureSticks(m: Model, es: seq<RepositoryEntry>, k: nat)
    requires k <= |es|
    requires RepositoryEntriesStep(m, es[..k]).outcome.Failed?
    ensures RepositoryEntriesStep(m, es) == RepositoryEntriesStep(m, es[..k])
  {
    if k < |es| {
      assert es[..|es| - 1][..k] == es[..k];
      RepositoryEntriesFailureSticks(m, es[..|es| - 1], k);
    } else {
      assert es[..k] == es;
    }
  }

  /**
   * The double visit of a repositories block is harmless: the second pass
   * over the entries changes nothing, because every URL it adds is present.
   */
  lemma RepositoriesDeclarationSecondPassInert(m: Model, es: seq<RepositoryEntry>)
    ensures RepositoriesDeclarationStep(m, es) == RepositoryEntriesStep(m, es)
  {
    RepositoryEntriesClosedForm(m, es);
    var first := RepositoryEntriesStep(m, es);
    if first.outcome.Completed? {
      RepositoryEntriesClosedForm(first.model, es);
      AddAllTwice(m.repositories, EntryUrls(es));
    }
  }

  // ---------------------------------------------------------------- dependencies

  /** The unquoted coordinates of the entries, in encounter order, repeats kept. */
  function Coordinates(ds: seq<DependencyEntry>): (cs: seq<string>)
    ensures |cs| == |ds|
    ensures forall i :: 0 <= i < |ds| ==> cs[i] == TrimQuotes(ds[i].coordinate)
  {
    if ds == [] then []
    else Coordinates(ds[..|ds| - 1]) + [TrimQuotes(ds[|ds| - 1].coordinate)]
  }

  /**
   * The inherited visit of a dependencies block: one artifact line and one
   * `deps` line per entry, in order.
   */
  function DependenciesStep(m: Model, ds: seq<DependencyEntry>): Model {
    m.(workspace := m.workspace + ArtifactLines(Coordinates(ds)),
       build := m.build + DepsLines(Coordinates(ds)))
  }

  /** Visiting one more entry appends that entry's two lines. */
  lemma DependenciesStepExtend(m: Model, ds: seq<DependencyEntry>, i: nat)
    requires i < |ds|
    ensures var prior, next := DependenciesStep(m, ds[..i]), DependenciesStep(m, ds[..i + 1]);
            var c := TrimQuotes(ds[i].coordinate);
            next.workspace == prior.workspace + ArtifactLine(c) &&
            next.build == prior.build + DepsLine(c) &&
            next.repositories == prior.repositories
  {
    var c := TrimQuotes(ds[i].coordinate);
    var before := Coordinates(ds[..i]);
    assert ds[..i + 1][..i] == ds[..i];
    assert Coordinates(ds[..i + 1]) == before + [c];
    assert (before + [c])[..|before|] == before;
    assert ArtifactLines(before + [c]) == ArtifactLines(before) + ArtifactLine(c);
    assert DepsLines(before + [c]) == DepsLines(before) + DepsLine(c);
    assert m.workspace + (ArtifactLines(before) + ArtifactLine(c)) ==
           (m.workspace + ArtifactLines(before)) + ArtifactLine(c);
    assert m.build + (DepsLines(before) + DepsLine(c)) == (m.build + DepsLines(before)) + DepsLine(c);
  }

  // ---------------------------------------------------------------- tasks

  const MainClassKey: string := "mainClass"

  /**
   * `taskStatement().find { key == "mainClass" }?.STRING()?.text?.trim('\'')`:
   * the value of the first statement keyed `mainClass`, if that value is a
   * string literal.
   */
  function MainClass(statements: seq<TaskStatement>): Option<string> {
    if statements == [] then None
    else if statements[0].key == MainClassKey then
      match statements[0].value
      case StringValue(literal) => Some(TrimQuotes(literal))
      case PathValue(_) => None
    else MainClass(statements[1..])
  }

  /** Only the first `mainClass` statement counts, and only its string value. */
  lemma {:induction false} MainClassIsFirstKeyed(statements: seq<TaskStatement>, i: nat)
    requires i < |statements| && statements[i].key == MainClassKey
    requires forall j :: 0 <= j < i ==> statements[j].key != MainClassKey
    ensures MainClass(statements) ==
              match statements[i].value
              case StringValue(literal) => Some(TrimQuotes(literal))
              case PathValue(_) => None
  {
    if i > 0 {
      MainClassIsFirstKeyed(statements[1..], i - 1);
    }
  }

  /** Without a `mainClass` statement there is no main class. */
  lemma {:induction false} MainClassAbsent(statements: seq<TaskStatement>)
    requires forall j :: 0 <= j < |statements| ==> statements[j].key != MainClassKey
    ensures MainClass(statements) == None
  {
    if statements != [] {
      MainClassAbsent(statements[1..]);
    }
  }

  /** The text a task registration adds to the BUILD document. */
  function TaskStanza(t: TaskRegistration): string {
    match MainClass(t.statements)
    case Some(mainClass) => JavaBinary(TrimQuotes(t.name), mainClass)
    case None => ""
  }

  // ---------------------------------------------------------------- the script

  /** Visiting one top-level block. */
  function BlockStep(m: Model, b: Block): Run {
    match b
    case PluginsDeclaration(_) => Run(m, Completed)
    case RepositoriesDeclaration(es) => RepositoriesDeclarationStep(m, es)
    case DependenciesDeclaration(ds) => Run(DependenciesStep(m, ds), Completed)
    case TaskBlock(t) => Run(m.(build := m.build + TaskStanza(t)), Completed)
  }

  /** The inherited visit of the script's children, stopping at the first error. */
  function BlocksStep(m: Model, bs: seq<Block>): Run {
    if bs == [] then Run(m, Completed)
    else
      var prior := BlocksStep(m, bs[..|bs| - 1]);
      if prior.outcome.Failed? then prior else BlockStep(prior.model, bs[|bs| - 1])
  }

  lemma {:induction false} BlocksFailureSticks(m: Model, bs: seq<Block>, k: nat)
    requires k <= |bs|
    requires BlocksStep(m, bs[..k]).outcome.Failed?
    ensures BlocksStep(m, bs) == BlocksStep(m, bs[..k])
  {
    if k < |bs| {
      assert bs[..|bs| - 1][..k] == bs[..k];
      BlocksFailureSticks(m, bs[..|bs| - 1], k);
    } else {
      assert bs[..k] == bs;
    }
  }

  /**
   * `visitBuildScript`: visit every block, then close the artifact list and
   * write the repositories list from the finished set.
   */
  function BuildScriptStep(m: Model, script: BuildScript): Run {
    var run := BlocksStep(m, script.blocks);
    if run.outcome.Failed? then run
    else
      Run(run.model.(workspace := run.model.workspace + RepositoriesHeader
                                  + RepositoryLines(run.model.repositories) + Closing),
          Completed)
  }

  // ---------------------------------------------------------------- the documents, directly

  /** The repository entries of one block. */
  function BlockRepositoryEntries(b: Block): seq<RepositoryEntry> {
    match b
    case RepositoriesDeclaration(es) => es
    case _ => []
  }

  /** The unquoted dependency coordinates of one block. */
  function BlockCoordinates(b: Block): seq<string> {
    match b
    case DependenciesDeclaration(ds) => Coordinates(ds)
    case _ => []
  }

  /** The BUILD text of one block: its `deps` lines, or its stanza. */
  function BlockBuildText(b: Block): string {
    match b
    case DependenciesDeclaration(ds) => DepsLines(Coordinates(ds))
    case TaskBlock(t) => TaskStanza(t)
    case _ => ""
  }

  /** Every repository entry of the script, in source order. */
  function ScriptRepositoryEntries(bs: seq<Block>): seq<RepositoryEntry> {
    if bs == [] then []
    else ScriptRepositoryEntries(bs[..|bs| - 1]) + BlockRepositoryEntries(bs[|bs| - 1])
  }

  /** Every dependency coordinate of the script, unquoted, in source order. */
  function ScriptCoordinates(bs: seq<Block>): seq<string> {
    if bs == [] then []
    else ScriptCoordinates(bs[..|bs| - 1]) + BlockCoordinates(bs[|bs| - 1])
  }

  /** The BUILD document: `deps` lines and stanzas, block by block. */
  function BuildText(bs: seq<Block>): string {
    if bs == [] then ""
    else BuildText(bs[..|bs| - 1]) + BlockBuildText(bs[|bs| - 1])
  }

  /** One block's visit, in terms of what the block contributes. */
  lemma BlockClosedForm(m: Model, b: Block)
    ensures var run := BlockStep(m, b);
            run.outcome ==
              (if Maven(None) in BlockRepositoryEntries(b) then Failed(MissingRepositoryUrl) else Completed) &&
            (run.outcome.Completed? ==>
               run.model == Model(m.workspace + ArtifactLines(BlockCoordinates(b)),
                                  m.build + BlockBuildText(b),
                                  AddAll(m.repositories, EntryUrls(BlockRepositoryEntries(b)))))
  {
    match b
    case PluginsDeclaration(_) =>
      assert m.workspace + ArtifactLines([]) == m.workspace;
      assert m.build + "" == m.build;
    case RepositoriesDeclaration(es) =>
      RepositoriesDeclarationSecondPassInert(m, es);
      RepositoryEntriesClosedForm(m, es);
      assert m.workspace + ArtifactLines([]) == m.workspace;
      assert m.build + "" == m.build;
    case DependenciesDeclaration(ds) =>
    case TaskBlock(t) =>
      assert m.workspace + ArtifactLines([]) == m.workspace;
  }

  /** Visiting the blocks fails exactly when a `maven` entry has no URL. */
  lemma {:induction false} BlocksOutcome(m: Model, bs: seq<Block>)
    ensures BlocksStep(m, bs).outcome ==
              (if Maven(None) in ScriptRepositoryEntries(bs) then Failed(MissingRepositoryUrl) else Completed)
  {
    if bs != [] {
      var front := bs[..|bs| - 1];
      BlocksOutcome(m, front);
      var prior := BlocksStep(m, front);
      if prior.outcome.Completed? {
        BlockClosedForm(prior.model, bs[|bs| - 1]);
      }
    }
  }

  /** A completed visit appends the artifact line of every coordinate, in order. */
  lemma {:induction false} BlocksWorkspace(m: Model, bs: seq<Block>)
    ensures var run := BlocksStep(m, bs);
            run.outcome.Completed? ==> run.model.workspace == m.workspace + ArtifactLines(ScriptCoordinates(bs))
  {
    if bs != [] {
      var front := bs[..|bs| - 1];
      BlocksWorkspace(m, front);
      var prior := BlocksStep(m, front);
      if prior.outcome.Completed? {
        BlockClosedForm(prior.model, bs[|bs| - 1]);
        ArtifactLinesConcat(ScriptCoordinates(front), BlockCoordinates(bs[|bs| - 1]));
      }
    }
  }

  /** A completed visit appends the BUILD text of the blocks. */
  lemma {:induction false} BlocksBuild(m: Model, bs: seq<Block>)
    ensures var run := BlocksStep(m, bs);
            run.outcome.Completed? ==> run.model.build == m.build + BuildText(bs)
  {
    if bs != [] {
      var front := bs[..|bs| - 1];
      BlocksBuild(m, front);
      var prior := BlocksStep(m, front);
      if prior.outcome.Completed? {
        BlockClosedForm(prior.model, bs[|bs| - 1]);
      }
    }
  }

  /** A completed visit adds every repository URL of the script, in order. */
  lemma {:induction false} BlocksRepositories(m: Model, bs: seq<Block>)
    ensures var run := BlocksStep(m, bs);
            run.outcome.Completed? ==>
              run.model.repositories == AddAll(m.repositories, EntryUrls(ScriptRepositoryEntries(bs)))
  {
    if bs != [] {
      var front := bs[..|bs| - 1];
      var b := bs[|bs| - 1];
      BlocksRepositories(m, front);
      var prior := BlocksStep(m, front);
      if prior.outcome.Completed? {
        BlockClosedForm(prior.model, b);
        EntryUrlsConcat(ScriptRepositoryEntries(front), BlockRepositoryEntries(b));
        AddAllConcat(m.repositories, EntryUrls(ScriptRepositoryEntries(front)),
                     EntryUrls(BlockRepositoryEntries(b)));
      }
    }
  }

  /**
   * Visiting the blocks fails exactly when some repository entry is a `maven`
   * entry without a URL. Otherwise the WORKSPACE text gains the artifact lines
   * of every dependency in source order, the BUILD text gains the BUILD
   * document of the blocks, and the set gains every URL in order.
   */
  lemma BlocksClosedForm(m: Model, bs: seq<Block>)
    ensures var run := BlocksStep(m, bs);
            run.outcome ==
              (if Maven(None) in ScriptRepositoryEntries(bs) then Failed(MissingRepositoryUrl) else Completed) &&
            (run.outcome.Completed? ==>
               run.model == Model(m.workspace + ArtifactLines(ScriptCoordinates(bs)),
                                  m.build + BuildText(bs),
                                  AddAll(m.repositories, EntryUrls(ScriptRepositoryEntries(bs)))))
  {
    BlocksOutcome(m, bs);
    BlocksWorkspace(m, bs);
    BlocksBuild(m, bs);
    BlocksRepositories(m, bs);
  }

  /** The script without its plugins blocks. */
  function WithoutPlugins(bs: seq<Block>): (r: seq<Block>)
    ensures |r| <= |bs|
    ensures forall b :: b in r <==> b in bs && !b.PluginsDeclaration?
  {
    if bs == [] then []
    else
      var front := bs[..|bs| - 1];
      var last := bs[|bs| - 1];
      assert forall b :: b in bs <==> b in front || b == last;
      if last.PluginsDeclaration? then WithoutPlugins(front)
      else WithoutPlugins(front) + [last]
  }

  /**
   * Removing plugins blocks works piece by piece, so the blocks that stay
   * keep their order: what is kept of `a + b` is what is kept of `a`, then
   * what is kept of `b`.
   */
  lemma {:induction false} WithoutPluginsConcat(a: seq<Block>, b: seq<Block>)
    ensures WithoutPlugins(a + b) == WithoutPlugins(a) + WithoutPlugins(b)
  {
    if b == [] {
      assert a + b == a;
    } else {
      var front := b[..|b| - 1];
      var last := b[|b| - 1];
      assert (a + b)[..|a + b| - 1] == a + front;
      assert (a + b)[|a + b| - 1] == last;
      WithoutPluginsConcat(a, front);
      if !last.PluginsDeclaration? {
        assert WithoutPlugins(a) + WithoutPlugins(front) + [last] ==
               WithoutPlugins(a) + (WithoutPlugins(front) + [last]);
      }
    }
  }

  /**
   * Plugins are collected by nobody: removing every plugins block, however
   * many entries and repeats it has, changes neither the outcome nor any
   * part of the state the visit produces.
   */
  lemma {:induction false} PluginsHaveNoEffect(m: Model, bs: seq<Block>)
    ensures BlocksStep(m, bs) == BlocksStep(m, WithoutPlugins(bs))
  {
    if bs != [] {
      var front := bs[..|bs| - 1];
      var b := bs[|bs| - 1];
      PluginsHaveNoEffect(m, front);
      if !b.PluginsDeclaration? {
        var r := WithoutPlugins(front) + [b];
        assert r[..|r| - 1] == WithoutPlugins(front);
      }
    }
  }

  /**
   * What a fresh visitor produces from a script. It fails exactly when a
   * `maven` repository entry has no URL. Otherwise the WORKSPACE text is the
   * fixed preamble, one artifact line per dependency in source order, the
   * repositories list of the distinct URLs in first-seen order, and the
   * closing; the BUILD text is the `deps` lines and stanzas block by block;
   * and the set holds the distinct URLs.
   */
  lemma TranslateScript(script: BuildScript)
    ensures var run := BuildScriptStep(Initial, script);
            var entries := ScriptRepositoryEntries(script.blocks);
            var urls := Distinct(EntryUrls(entries));
            run.outcome == (if Maven(None) in entries then Failed(MissingRepositoryUrl) else Completed) &&
            (run.outcome.Completed? ==>
               run.model.workspace == Preamble + ArtifactLines(ScriptCoordinates(script.blocks))
                                      + RepositoriesHeader + RepositoryLines(urls) + Closing &&
               run.model.build == BuildText(script.blocks) &&
               run.model.repositories == urls)
  {
    BlocksClosedForm(Initial, script.blocks);
  }
}
