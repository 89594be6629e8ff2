/**
 * The visitor itself: an object whose visit methods append to two text
 * buffers and add to an insertion-ordered set, in the order the script's
 * nodes are visited. Each method is proved against the step function of the
 * `Translation` module that describes its effect.
 */
module Visitor {
  import opened Wrappers
  import opened GradleAst
  import opened Literals
  import opened RepositorySet
  import opened BazelText
  import opened Translation

  class GradleToBazelVisitor {
    /** The BUILD document under construction. */
    var bazelModel: string
    /** The WORKSPACE document under construction. */
    var workspaceModel: string
    /** The repository URLs seen so far, in first-insertion order. */
    var repositories: seq<string>
    /** Declared by the Kotlin class, never written to. */
    var plugins: seq<string>

    /**
     * The class invariant: `repositories` is a `LinkedHashSet`, so it never
     * holds a URL twice. Every method keeps it; the exact new state each
     * method states does not depend on it.
     */
    ghost predicate Valid()
      reads this
    {
      NoDuplicates(repositories)
    }

    /** The part of the state the visits change. */
    function Snapshot(): Model
      reads this
    {
      Model(workspaceModel, bazelModel, repositories)
    }

    /** Field initialisers, then the `init` block that writes the preamble. */
    constructor ()
      ensures Valid()
      ensures Snapshot() == Initial && plugins == []
    {
      bazelModel := "";
      repositories := [];
      plugins := [];
      workspaceModel := Preamble;
    }

    /**
     * `visitBuildScript`: visit every block, then close the artifact list and
     * write one line per repository of the finished set. An error raised by a
     * block leaves the method before the trailer is written.
     */
    method VisitBuildScript(script: BuildScript) returns (outcome: Outcome)
      requires Valid()
      modifies this`workspaceModel, this`bazelModel, this`repositories
      ensures Valid()
      ensures Run(Snapshot(), outcome) == BuildScriptStep(old(Snapshot()), script)
    {
      outcome := VisitChildren(script.blocks);
      if outcome.Failed? {
        return;
      }
      ghost var visited := workspaceModel;
      workspaceModel := workspaceModel + RepositoriesHeader;
      var i := 0;
      while i < |repositories|
        invariant 0 <= i <= |repositories|
        invariant repositories == old(BlocksStep(Snapshot(), script.blocks)).model.repositories
        invariant bazelModel == old(BlocksStep(Snapshot(), script.blocks)).model.build
        invariant workspaceModel == visited + RepositoriesHeader + RepositoryLines(repositories[..i])
      {
        assert repositories[..i + 1][..i] == repositories[..i];
        workspaceModel := workspaceModel + RepositoryLine(repositories[i]);
        i := i + 1;
      }
      assert repositories[..i] == repositories;
      workspaceModel := workspaceModel + Closing;
    }

    /** The inherited `visitChildren` of the script: each block in order. */
    method VisitChildren(blocks: seq<Block>) returns (outcome: Outcome)
      requires Valid()
      modifies this`workspaceModel, this`bazelModel, this`repositories
      ensures Valid()
      ensures Run(Snapshot(), outcome) == BlocksStep(old(Snapshot()), blocks)
    {
      outcome := Completed;
      var i := 0;
      while i < |blocks|
        invariant 0 <= i <= |blocks|
        invariant Valid()
        invariant outcome == Completed
        invariant Run(Snapshot(), Completed) == BlocksStep(old(Snapshot()), blocks[..i])
      {
        assert blocks[..i + 1][..i] == blocks[..i];
        outcome := Visit(blocks[i]);
        if outcome.Failed? {
          BlocksFailureSticks(old(Snapshot()), blocks, i + 1);
          return;
        }
        i := i + 1;
      }
      assert blocks[..i] == blocks;
    }

    /** The parser tree's dispatch to the visit method of the block's kind. */
    method Visit(b: Block) returns (outcome: Outcome)
      requires Valid()
      modifies this`workspaceModel, this`bazelModel, this`repositories
      ensures Valid()
      ensures Run(Snapshot(), outcome) == BlockStep(old(Snapshot()), b)
    {
      match b
      case PluginsDeclaration(entries) =>
        VisitPluginsDeclaration(entries);
        outcome := Completed;
      case RepositoriesDeclaration(entries) =>
        outcome := VisitRepositoriesDeclaration(entries);
      case DependenciesDeclaration(entries) =>
        VisitDependenciesDeclaration(entries);
        outcome := Completed;
      case TaskBlock(task) =>
        VisitTaskRegistration(task);
        outcome := Completed;
    }

    /**
     * `visitPluginsDeclaration`: every entry is visited twice, once by the
     * inherited visit of the children and once by the explicit `forEach`.
     */
    method VisitPluginsDeclaration(entries: seq<PluginEntry>)
      ensures Snapshot() == old(Snapshot()) && plugins == old(plugins)
    {
      for i := 0 to |entries| {
        VisitPluginEntry(entries[i]);
      }
      for i := 0 to |entries| {
        VisitPluginEntry(entries[i]);
      }
    }

    /** `visitPluginEntry`: prints the plugin's id and changes no state. */
    method VisitPluginEntry(entry: PluginEntry)
      ensures Snapshot() == old(Snapshot()) && plugins == old(plugins)
    {
    }

    /**
     * `visitRepositoriesDeclaration`: the inherited visit of the entries, then
     * the explicit `forEach` over the same entries.
     */
    method VisitRepositoriesDeclaration(entries: seq<RepositoryEntry>) returns (outcome: Outcome)
      requires Valid()
      modifies this`repositories
      ensures Valid()
      ensures Run(Snapshot(), outcome) == RepositoriesDeclarationStep(old(Snapshot()), entries)
    {
      outcome := VisitEachRepositoryEntry(entries);
      if outcome.Completed? {
        outcome := VisitEachRepositoryEntry(entries);
      }
    }

    /** One pass over the entries of a repositories block. */
    method VisitEachRepositoryEntry(entries: seq<RepositoryEntry>) returns (outcome: Outcome)
      requires Valid()
      modifies this`repositories
      ensures Valid()
      ensures Run(Snapshot(), outcome) == RepositoryEntriesStep(old(Snapshot()), entries)
    {
      outcome := Completed;
      var i := 0;
      while i < |entries|
        invariant 0 <= i <= |entries|
        invariant Valid()
        invariant outcome == Completed
        invariant Run(Snapshot(), Completed) == RepositoryEntriesStep(old(Snapshot()), entries[..i])
      {
        assert entries[..i + 1][..i] == entries[..i];
        outcome := VisitRepositoryEntry(entries[i]);
        if outcome.Failed? {
          RepositoryEntriesFailureSticks(old(Snapshot()), entries, i + 1);
          return;
        }
        i := i + 1;
      }
      assert entries[..i] == entries;
    }

    /**
     * `visitRepositoryEntry`: add the well-known URL, or the unquoted literal
     * of a `maven` entry; a `maven` entry without a literal fails.
     */
    method VisitRepositoryEntry(entry: RepositoryEntry) returns (outcome: Outcome)
      requires Valid()
      modifies this`repositories
      ensures Valid()
      ensures Run(Snapshot(), outcome) == RepositoryEntryStep(old(Snapshot()), entry)
    {
      match entry
      case MavenCentral =>
        AddRepository(MavenCentralUrl);
        outcome := Completed;
      case JCenter =>
        AddRepository(JCenterUrl);
        outcome := Completed;
      case Maven(url) =>
        if url.None? {
          // `ctx.STRING()` is null here, and dereferencing it throws.
          outcome := Failed(MissingRepositoryUrl);
        } else {
          AddRepository(TrimQuotes(url.value));
          outcome := Completed;
        }
      case Other =>
        outcome := Completed;
    }

    /** `repositories.add(url)` on the insertion-ordered set. */
    method AddRepository(url: string)
      requires Valid()
      modifies this`repositories
      ensures Valid()
      ensures repositories == Add(old(repositories), url)
    {
      if url !in repositories {
        repositories := repositories + [url];
      }
    }

    /** The inherited `visitChildren` of a dependencies block: each entry in order. */
    method VisitDependenciesDeclaration(entries: seq<DependencyEntry>)
      modifies this`workspaceModel, this`bazelModel
      ensures Snapshot() == DependenciesStep(old(Snapshot()), entries)
    {
      for i := 0 to |entries|
        invariant Snapshot() == DependenciesStep(old(Snapshot()), entries[..i])
      {
        DependenciesStepExtend(old(Snapshot()), entries, i);
        VisitDependencyEntry(entries[i]);
      }
      assert entries[..|entries|] == entries;
    }

    /**
     * `visitDependencyEntry`: exactly one artifact line in the WORKSPACE text
     * and one `deps` line in the BUILD text, both for the unquoted coordinate.
     */
    method VisitDependencyEntry(entry: DependencyEntry)
      modifies this`workspaceModel, this`bazelModel
      ensures workspaceModel == old(workspaceModel) + ArtifactLine(TrimQuotes(entry.coordinate))
      ensures bazelModel == old(bazelModel) + DepsLine(TrimQuotes(entry.coordinate))
    {
      var dependency := TrimQuotes(entry.coordinate);
      workspaceModel := workspaceModel + ArtifactLine(dependency);
      bazelModel := bazelModel + DepsLine(dependency);
    }

    /**
     * `visitTaskRegistration`: one `java_binary` stanza when the first
     * `mainClass` statement has a string value, nothing otherwise.
     */
    method VisitTaskRegistration(task: TaskRegistration)
      modifies this`bazelModel
      ensures bazelModel == old(bazelModel) + TaskStanza(task)
    {
      var taskName := TrimQuotes(task.name);
      var mainClass := MainClass(task.statements);
      if mainClass.Some? {
        bazelModel := bazelModel + JavaBinary(taskName, mainClass.value);
      }
    }
  }
}
