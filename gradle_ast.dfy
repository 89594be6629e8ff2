/**
 * The syntax tree of a Gradle build script, as the parser hands it to the
 * visitor. Only the node kinds the visitor looks at are represented; every
 * literal is the raw token text, still wrapped in its single quotes.
 */
module GradleAst {
  import opened Wrappers

  /** `id 'x'` or `id 'x' version 'v'` inside a `plugins { }` block. */
  datatype PluginEntry = PluginEntry(id: string, version: Option<string>)

  /**
   * One line of a `repositories { }` block. `Maven` carries the quoted URL
   * literal when the parser found one; `Other` stands for an entry that has
   * none of the MAVENCENTRAL, JCENTER or MAVEN tokens.
   */
  datatype RepositoryEntry =
    | MavenCentral
    | JCenter
    | Maven(url: Option<string>)
    | Other

  /** `implementation 'group:artifact:version'` inside `dependencies { }`. */
  datatype DependencyEntry = DependencyEntry(configuration: string, coordinate: string)

  /** The right-hand side of a statement nested in a task registration. */
  datatype StatementValue =
    | StringValue(literal: string)
    | PathValue(path: seq<string>)

  /** `key = value` nested in a task registration. */
  datatype TaskStatement = TaskStatement(key: string, value: StatementValue)

  /** `tasks.register('name', Executor) { statements }`. */
  datatype TaskRegistration = TaskRegistration(name: string, executor: string, statements: seq<TaskStatement>)

  /** A top-level declaration block of the script, in source order. */
  datatype Block =
    | PluginsDeclaration(plugins: seq<PluginEntry>)
    | RepositoriesDeclaration(entries: seq<RepositoryEntry>)
    | DependenciesDeclaration(dependencies: seq<DependencyEntry>)
    | TaskBlock(task: TaskRegistration)

  datatype BuildScript = BuildScript(blocks: seq<Block>)
}
