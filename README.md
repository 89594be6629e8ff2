# g2b-transpiler: the Gradle-to-Bazel visitor, in Dafny

The g2b transpiler reads a Gradle build script and writes a Bazel
`WORKSPACE` file and a `BUILD.bazel` file. All of its translation logic sits
in one Kotlin class, `GradleToBazelVisitor`. The class walks the parsed
script and keeps four pieces of state:

- `workspaceModel`: the WORKSPACE text. It starts with a fixed
  `rules_jvm_external` / `maven_install` preamble. It gets one artifact line
  per dependency. It ends with a `repositories = [...]` list and a closing `)`.
- `bazelModel`: the BUILD text. It gets one `deps = ["@maven//:..."]` line per
  dependency and one `java_binary` stanza per task that has a `mainClass`.
- `repositories`: an insertion-ordered set of repository URLs.
- `plugins`: declared, never written.

This project models that class.

- `gradle_ast.dfy` is the parsed script as a datatype. Literals are kept as
  raw token text, quotes included.
- `literals.dfy` holds the two text helpers: Kotlin's `trim('\'')` and the
  `:`→`_` label conversion.
- `repository_set.dfy` models the insertion-ordered set.
- `bazel_text.dfy` holds the fixed boilerplate and the per-item lines.
- `translation.dfy` gives each visit's effect as a function on a snapshot of
  the state. It also proves closed forms for a whole traversal.
- `visitor.dfy` is the class `GradleToBazelVisitor`. Its fields are updated in
  place by one method per `visit*` override. Each method is proved against
  the matching step function.
- `scenarios.dfy` proves what the model yields on concrete scripts.

A `maven` repository entry without a URL literal makes the Kotlin code
dereference a null token. The resulting exception leaves every enclosing
visit. The model returns `Failed(MissingRepositoryUrl)` and stops in the
same places. The state reached at that point is kept exactly.

Three features of the code shape the model:

- `plugins` is never written. `visitPluginEntry` only prints each plugin id,
  so plugins blocks leave no trace in the state.
- Text is appended while the blocks are visited. Only the repositories list
  is written after all blocks, from the finished set.
- A task without a `mainClass` string value leaves no trace. A task with one
  yields a `java_binary` stanza right away.

## Model

| member | source | states |
|---|---|---|
| Literals.TrimQuotes | src/main/kotlin/GradleToBazelVisitor.kt:84 | `trim('\'')` never lengthens a literal, and its result neither starts nor ends with a single quote |
| Literals.TrimQuotesRemovesOnlyQuotes | src/main/kotlin/GradleToBazelVisitor.kt:84 | the input is the result with some quotes before it and some quotes after it |
| Literals.TrimQuotesUnwraps | src/main/kotlin/GradleToBazelVisitor.kt:93 | a string with no boundary quote comes back unchanged from trimming, whatever number of quotes wraps it on either side |
| Literals.TrimQuotedLiteral | src/main/kotlin/GradleToBazelVisitor.kt:77 | the literal `'x'`, where `x` has no boundary quote, trims to `x` |
| Literals.TrimQuotesIdempotent | src/main/kotlin/GradleToBazelVisitor.kt:94 | trimming twice equals trimming once |
| Literals.ReplaceColons | src/main/kotlin/GradleToBazelVisitor.kt:87 | `replace(':', '_')` keeps the length, leaves no colon, turns each colon into `_` and keeps every other character |
| Literals.MavenLabel | src/main/kotlin/GradleToBazelVisitor.kt:87 | the label is `@maven//:` followed by the coordinate; the length is kept, no colon follows the prefix, and non-colon characters are unchanged |
| Literals.MavenLabelCollides | src/main/kotlin/GradleToBazelVisitor.kt:87 | the conversion is not injective: `g:a_b:1` and `g_a:b:1` get the same label |
| RepositorySet.Add | src/main/kotlin/GradleToBazelVisitor.kt:74-78 | `repositories.add` adds the URL only if it is absent, keeps the old order as a prefix and keeps the set free of duplicates |
| RepositorySet.AddAll | src/main/kotlin/GradleToBazelVisitor.kt:68 | adding a list of URLs keeps the old set as a prefix, keeps it duplicate-free, and its members are exactly the old ones plus the list |
| RepositorySet.AddAllAbsorbed | src/main/kotlin/GradleToBazelVisitor.kt:9 | adding only URLs already in the set changes nothing |
| RepositorySet.AddAllConcat | src/main/kotlin/GradleToBazelVisitor.kt:9 | adding `u` and then `v` equals adding `u + v` |
| RepositorySet.AddAllTwice | src/main/kotlin/GradleToBazelVisitor.kt:66-69 | a second pass over the same URLs leaves the set as the first pass left it |
| RepositorySet.Distinct | src/main/kotlin/GradleToBazelVisitor.kt:9 | the set built from a URL list has no duplicates and holds exactly the URLs of the list |
| RepositorySet.DistinctFirstSeenOrder | src/main/kotlin/GradleToBazelVisitor.kt:40-42 | the set lists URLs in the order of their first occurrence in the input |
| Translation.RepositoryUrl | src/main/kotlin/GradleToBazelVisitor.kt:73-80 | a repository entry fails exactly when it is a `maven` entry without a literal, and contributes no URL exactly when it matches none of the three kinds |
| Translation.RepositoryEntryStep | src/main/kotlin/GradleToBazelVisitor.kt:71-81 | a repository entry never touches either text and keeps the set duplicate-free; it fails exactly on a `maven` entry without a URL |
| Translation.RepositoryEntriesClosedForm | src/main/kotlin/GradleToBazelVisitor.kt:68 | a pass over the entries fails exactly when one lacks its URL; otherwise it adds their URLs in order and changes nothing else |
| Translation.RepositoryEntriesFailureSticks | src/main/kotlin/GradleToBazelVisitor.kt:76-77 | once an entry has failed, the entries after it are not visited |
| Translation.RepositoriesDeclarationSecondPassInert | src/main/kotlin/GradleToBazelVisitor.kt:66-69 | visiting each entry twice gives exactly what one pass gives |
| Translation.Coordinates | src/main/kotlin/GradleToBazelVisitor.kt:84 | dependency coordinates are unquoted one for one, in encounter order, with duplicates kept |
| Translation.DependenciesStepExtend | src/main/kotlin/GradleToBazelVisitor.kt:83-88 | each further dependency appends one artifact line and one `deps` line and leaves the set alone |
| Translation.MainClassIsFirstKeyed | src/main/kotlin/GradleToBazelVisitor.kt:94 | the main class comes from the first statement keyed `mainClass`: its unquoted string value, or none if that value is a path |
| Translation.MainClassAbsent | src/main/kotlin/GradleToBazelVisitor.kt:94-95 | with no `mainClass` statement there is no main class |
| Translation.BlockClosedForm | src/main/kotlin/GradleToBazelVisitor.kt:33 | one block's visit adds that block's artifact lines, BUILD text and URLs, and fails exactly on a `maven` entry without a URL |
| Translation.BlocksOutcome | src/main/kotlin/GradleToBazelVisitor.kt:76-77 | visiting the blocks fails exactly when some `maven` entry has no URL |
| Translation.BlocksWorkspace | src/main/kotlin/GradleToBazelVisitor.kt:86 | a completed visit appends the artifact lines of all coordinates in source order |
| Translation.BlocksBuild | src/main/kotlin/GradleToBazelVisitor.kt:87-105 | a completed visit appends the `deps` lines and stanzas block by block |
| Translation.BlocksRepositories | src/main/kotlin/GradleToBazelVisitor.kt:74-78 | a completed visit adds every repository URL of the script in order |
| Translation.BlocksClosedForm | src/main/kotlin/GradleToBazelVisitor.kt:33 | the four facts above together, as one closed form of the state after the blocks |
| Translation.WithoutPlugins | src/main/kotlin/GradleToBazelVisitor.kt:51-54 | a block is kept exactly when it is not a plugins block, and nothing is added |
| Translation.WithoutPluginsConcat | src/main/kotlin/GradleToBazelVisitor.kt:51-54 | removing plugins blocks works piece by piece, so the kept blocks stay in source order |
| Translation.PluginsHaveNoEffect | src/main/kotlin/GradleToBazelVisitor.kt:56-64 | plugins blocks, repeated ids included, change neither the outcome nor any state |
| Translation.TranslateScript | src/main/kotlin/GradleToBazelVisitor.kt:12-48 | a fresh visitor yields the preamble, all artifact lines in order, the distinct URLs in first-seen order, and the closing; it fails exactly on a `maven` entry without a URL |
| Visitor.GradleToBazelVisitor.constructor | src/main/kotlin/GradleToBazelVisitor.kt:7-30 | a new visitor holds the preamble, an empty BUILD text, no repositories and no plugins |
| Visitor.GradleToBazelVisitor.VisitBuildScript | src/main/kotlin/GradleToBazelVisitor.kt:32-49 | visits all blocks, then writes the repositories list from the finished set; the set stays duplicate-free |
| Visitor.GradleToBazelVisitor.VisitChildren | src/main/kotlin/GradleToBazelVisitor.kt:33 | the inherited visit of the script's blocks, in order, stopping at the first error |
| Visitor.GradleToBazelVisitor.Visit | src/main/kotlin/GradleToBazelVisitor.kt:33 | dispatch of a block to the visit method of its kind |
| Visitor.GradleToBazelVisitor.VisitPluginsDeclaration | src/main/kotlin/GradleToBazelVisitor.kt:51-54 | each plugin entry is visited twice, and no state changes |
| Visitor.GradleToBazelVisitor.VisitPluginEntry | src/main/kotlin/GradleToBazelVisitor.kt:56-64 | a plugin entry changes no text, no repository and no plugin |
| Visitor.GradleToBazelVisitor.VisitRepositoriesDeclaration | src/main/kotlin/GradleToBazelVisitor.kt:66-69 | the inherited pass over the entries, then the explicit second pass; only `repositories` may change |
| Visitor.GradleToBazelVisitor.VisitEachRepositoryEntry | src/main/kotlin/GradleToBazelVisitor.kt:68 | one pass over the entries, stopping at the first error |
| Visitor.GradleToBazelVisitor.VisitRepositoryEntry | src/main/kotlin/GradleToBazelVisitor.kt:71-81 | adds the central URL, the JCenter URL or the unquoted `maven` literal; fails on a `maven` entry without a literal; ignores other entries |
| Visitor.GradleToBazelVisitor.AddRepository | src/main/kotlin/GradleToBazelVisitor.kt:74 | `repositories.add`: the set afterwards is `Add` of the set before |
| Visitor.GradleToBazelVisitor.VisitDependenciesDeclaration | src/main/kotlin/GradleToBazelVisitor.kt:83-88 | the inherited visit of a dependencies block: one artifact line and one `deps` line per entry, in order |
| Visitor.GradleToBazelVisitor.VisitDependencyEntry | src/main/kotlin/GradleToBazelVisitor.kt:83-89 | appends exactly one artifact line to the WORKSPACE text and one `deps` line to the BUILD text; nothing else changes |
| Visitor.GradleToBazelVisitor.VisitTaskRegistration | src/main/kotlin/GradleToBazelVisitor.kt:91-106 | appends one `java_binary` stanza with the unquoted name and main class when there is a main class, otherwise nothing; only the BUILD text may change |
| Scenarios.DemoScriptTranslation | src/main/kotlin/Main.kt:8-27 | the demonstration script, with any coordinates, task name and main class, completes. Its WORKSPACE text is the preamble, both artifact lines in order, the central URL once and the closing. Its BUILD text is both `deps` lines and one stanza |
| Scenarios.RepeatedRepositoriesListedOnce | src/main/kotlin/GradleToBazelVisitor.kt:66-81 | `mavenCentral()` declared three times over two blocks is listed once, before JCenter |
| Scenarios.MissingUrlFails | src/main/kotlin/GradleToBazelVisitor.kt:76-78 | a `maven` entry without a URL aborts the translation |

## Left out

- The ANTLR lexer and parser (`parseGradleScript`, the generated `GradleParser` and `GradleBaseVisitor`) are not part of this model. The script arrives as the `GradleAst` datatype.
- The grammar is not part of this model either. A repository entry is exactly one of central, JCenter, `maven`, or none of these. So the order in which the `when` tests the three tokens makes no difference here.
- A dependency entry and a task registration always carry their string literal in the datatype. A missing literal there would also raise a null dereference in the Kotlin code; that case is not modelled.
- The terminal nodes that the inherited `visitChildren` also visits have no effect and are not modelled. A task's nested statements are never visited, because `visitTaskRegistration` does not call `super`.
- `generateBazelBuildFiles` writes the two texts to files. That is I/O and is not modelled.
- Visitor.GradleToBazelVisitor.VisitPluginEntry: the `println` of each plugin id is console output and is not modelled.
- The Kotlin strings are UTF-16. The model treats text as a sequence of Dafny characters.
- Main.kt (command-line glue and a debug printer) and the two test files are not modelled. Their demonstration script only appears as a scenario.
- Scenarios.DemoScriptTranslation: the coordinates, task name and main class are parameters instead of the literal strings of Main.kt.
