/**
 * What the model yields on concrete scripts: the demonstration script of the
 * command-line entry point, a script that names one repository twice, and a
 * script with a `maven` entry that has no URL.
 */
module Scenarios {
  import opened Wrappers
  import opened GradleAst
  import opened Literals
  import opened RepositorySet
  import opened BazelText
  import opened Translation

  function Quoted(x: string): string {
    [Quote] + x + [Quote]
  }

  /**
   * The shape of the command-line demonstration script, for any coordinates,
   * task name and main class:
   *   plugins { id 'java'; id 'org.jetbrains.kotlin.jvm' version '1.5.31' }
   *   repositories { mavenCentral() }
   *   dependencies { implementation 'c1'; implementation 'c2' }
   *   tasks.register('name', JavaExec) {
   *     mainClass = 'main'; classpath = sourceSets.main.runtimeClasspath }
   */
  function DemoScript(c1: string, c2: string, name: string, main: string): BuildScript {
    BuildScript([
      PluginsDeclaration([PluginEntry("'java'", None),
                          PluginEntry("'org.jetbrains.kotlin.jvm'", Some("'1.5.31'"))]),
      RepositoriesDeclaration([MavenCentral]),
      DependenciesDeclaration([DependencyEntry("implementation", Quoted(c1)),
                               DependencyEntry("implementation", Quoted(c2))]),
      TaskBlock(TaskRegistration(Quoted(name), "JavaExec", [
        TaskStatement("mainClass", StringValue(Quoted(main))),
        TaskStatement("classpath", PathValue(["sourceSets", "main", "runtimeClasspath"]))]))
    ])
  }

  lemma DemoPrefixes(bs: seq<Block>)
    requires |bs| == 4
    ensures bs[..1][..0] == [] && bs[..2][..1] == bs[..1] && bs[..3][..2] == bs[..2] && bs[..4][..3] == bs[..3]
    ensures bs[..1][0] == bs[0] && bs[..2][1] == bs[1] && bs[..3][2] == bs[2] && bs[..4] == bs
  {
  }

  lemma DemoEntries(c1: string, c2: string, name: string, main: string)
    ensures ScriptRepositoryEntries(DemoScript(c1, c2, name, main).blocks) == [MavenCentral]
  {
    var bs := DemoScript(c1, c2, name, main).blocks;
    DemoPrefixes(bs);
    assert ScriptRepositoryEntries(bs[..1]) == [];
    assert ScriptRepositoryEntries(bs[..2]) == [MavenCentral];
    assert ScriptRepositoryEntries(bs[..3]) == [MavenCentral];
  }

  lemma DemoCoordinates(c1: string, c2: string, name: string, main: string)
    requires NoBoundaryQuote(c1) && NoBoundaryQuote(c2)
    ensures ScriptCoordinates(DemoScript(c1, c2, name, main).blocks) == [c1, c2]
  {
    var bs := DemoScript(c1, c2, name, main).blocks;
    TrimQuotedLiteral(c1);
    TrimQuotedLiteral(c2);
    DemoPrefixes(bs);
    var ds := bs[2].dependencies;
    assert ds[..1] == [ds[0]];
    assert Coordinates(ds) == [c1, c2];
    assert ScriptCoordinates(bs[..1]) == [];
    assert ScriptCoordinates(bs[..2]) == [];
    assert ScriptCoordinates(bs[..3]) == [c1, c2];
  }

  lemma DemoBuildText(c1: string, c2: string, name: string, main: string)
    requires NoBoundaryQuote(c1) && NoBoundaryQuote(c2) && NoBoundaryQuote(name) && NoBoundaryQuote(main)
    ensures BuildText(DemoScript(c1, c2, name, main).blocks) == DepsLines([c1, c2]) + JavaBinary(name, main)
  {
    var bs := DemoScript(c1, c2, name, main).blocks;
    DemoCoordinates(c1, c2, name, main);
    TrimQuotedLiteral(name);
    TrimQuotedLiteral(main);
    DemoPrefixes(bs);
    var ds := bs[2].dependencies;
    assert ds[..1] == [ds[0]];
    assert Coordinates(ds) == [c1, c2];
    assert MainClass(bs[3].task.statements) == Some(main);
    assert BuildText(bs[..1]) == "";
    assert BuildText(bs[..2]) == "";
    assert BuildText(bs[..3]) == DepsLines([c1, c2]);
  }

  /** The WORKSPACE text the demonstration script yields. */
  lemma DemoWorkspace(c1: string, c2: string, name: string, main: string)
    requires NoBoundaryQuote(c1) && NoBoundaryQuote(c2)
    ensures var run := BuildScriptStep(Initial, DemoScript(c1, c2, name, main));
            run.outcome == Completed &&
            run.model.workspace == Preamble + ArtifactLine(c1) + ArtifactLine(c2)
                                   + RepositoriesHeader + RepositoryLine(MavenCentralUrl) + Closing
  {
    var bs := DemoScript(c1, c2, name, main).blocks;
    DemoEntries(c1, c2, name, main);
    DemoCoordinates(c1, c2, name, main);
    BlocksOutcome(Initial, bs);
    BlocksWorkspace(Initial, bs);
    BlocksRepositories(Initial, bs);
    assert EntryUrls([MavenCentral]) == [MavenCentralUrl];
    var blocks := BlocksStep(Initial, bs);
    assert blocks.outcome == Completed;
    assert blocks.model.repositories == [MavenCentralUrl];
    ArtifactLinesPair(c1, c2);
    RepositoryLinesSingle(MavenCentralUrl);
    var artifacts := ArtifactLine(c1) + ArtifactLine(c2);
    assert blocks.model.workspace == Preamble + artifacts;
    assert Preamble + artifacts == Preamble + ArtifactLine(c1) + ArtifactLine(c2);
  }

  /**
   * The demonstration script translates without error: the WORKSPACE text
   * lists both coordinates in order and the central repository once, and the
   * BUILD text holds their two `deps` lines and one stanza for the task.
   */
  lemma DemoScriptTranslation(c1: string, c2: string, name: string, main: string)
    requires NoBoundaryQuote(c1) && NoBoundaryQuote(c2) && NoBoundaryQuote(name) && NoBoundaryQuote(main)
    ensures var run := BuildScriptStep(Initial, DemoScript(c1, c2, name, main));
            run.outcome == Completed &&
            run.model.workspace == Preamble + ArtifactLine(c1) + ArtifactLine(c2)
                                   + RepositoriesHeader + RepositoryLine(MavenCentralUrl) + Closing &&
            run.model.repositories == [MavenCentralUrl] &&
            run.model.build == DepsLine(c1) + DepsLine(c2) + JavaBinary(name, main)
  {
    var bs := DemoScript(c1, c2, name, main).blocks;
    DemoWorkspace(c1, c2, name, main);
    DemoEntries(c1, c2, name, main);
    DemoBuildText(c1, c2, name, main);
    BlocksBuild(Initial, bs);
    BlocksRepositories(Initial, bs);
    assert EntryUrls([MavenCentral]) == [MavenCentralUrl];
    DepsLinesPair(c1, c2);
    var blocks := BlocksStep(Initial, bs);
    assert blocks.model.build == DepsLine(c1) + DepsLine(c2) + JavaBinary(name, main);
    assert blocks.model.repositories == [MavenCentralUrl];
  }

  /** `mavenCentral()` declared in two blocks and once more in the first. */
  const RepeatedRepositories: BuildScript := BuildScript([
    RepositoriesDeclaration([MavenCentral, JCenter, MavenCentral]),
    RepositoriesDeclaration([MavenCentral])
  ])

  /** The URLs of the script above, in encounter order. */
  lemma RepeatedRepositoriesUrls()
    ensures EntryUrls(ScriptRepositoryEntries(RepeatedRepositories.blocks)) ==
              [MavenCentralUrl, JCenterUrl, MavenCentralUrl, MavenCentralUrl]
  {
    var bs := RepeatedRepositories.blocks;
    var es := [MavenCentral, JCenter, MavenCentral];
    assert bs[..1] == [bs[0]];
    assert ScriptRepositoryEntries(bs) == es + [MavenCentral];
    EntryUrlsConcat(es, [MavenCentral]);
    assert es[..2] == [MavenCentral, JCenter] && es[..2][..1] == [MavenCentral];
    assert EntryUrls(es) == [MavenCentralUrl, JCenterUrl, MavenCentralUrl];
  }

  lemma RepeatedRepositoriesDistinct()
    ensures Distinct([MavenCentralUrl, JCenterUrl, MavenCentralUrl, MavenCentralUrl]) ==
              [MavenCentralUrl, JCenterUrl]
  {
    var urls := [MavenCentralUrl, JCenterUrl, MavenCentralUrl, MavenCentralUrl];
    assert MavenCentralUrl != JCenterUrl by {
      assert |MavenCentralUrl| != |JCenterUrl|;
    }
    assert urls[..1] == [MavenCentralUrl];
    assert AddAll([], urls[..1]) == [MavenCentralUrl];
    assert urls[..2][..1] == urls[..1];
    assert AddAll([], urls[..2]) == [MavenCentralUrl, JCenterUrl];
    assert urls[..3][..2] == urls[..2];
    assert AddAll([], urls[..3]) == [MavenCentralUrl, JCenterUrl];
    assert urls[..3] == urls[..|urls| - 1];
  }

  /** A URL declared three times is listed once, in first-seen position. */
  lemma RepeatedRepositoriesListedOnce()
    ensures var run := BuildScriptStep(Initial, RepeatedRepositories);
            run.outcome == Completed && run.model.repositories == [MavenCentralUrl, JCenterUrl]
  {
    BlocksOutcome(Initial, RepeatedRepositories.blocks);
    BlocksRepositories(Initial, RepeatedRepositories.blocks);
    RepeatedRepositoriesUrls();
    RepeatedRepositoriesDistinct();
    assert ScriptRepositoryEntries(RepeatedRepositories.blocks) == [MavenCentral, JCenter, MavenCentral, MavenCentral];
  }

  /** A `maven { }` entry with no URL, after a valid dependency. */
  const MissingUrlScript: BuildScript := BuildScript([
    DependenciesDeclaration([DependencyEntry("implementation", "'g:a:1'")]),
    RepositoriesDeclaration([Maven(None)])
  ])

  /** The malformed entry aborts the translation. */
  lemma MissingUrlFails()
    ensures BuildScriptStep(Initial, MissingUrlScript).outcome == Failed(MissingRepositoryUrl)
  {
    var bs := MissingUrlScript.blocks;
    TranslateScript(MissingUrlScript);
    assert bs[..1] == [bs[0]];
    assert ScriptRepositoryEntries(bs) == [] + [Maven(None)];
  }
}
