/**
 * The fixed text the visitor writes into the WORKSPACE and BUILD documents,
 * each raw-string block as Kotlin's `trimIndent()` leaves it (common indent
 * removed, no trailing newline), and the per-item lines it appends.
 */
module BazelText {
  import opened Literals

  /** The `init` block: the rules_jvm_external setup up to `artifacts = [`. */
  const Preamble: string :=
    "load(\"@bazel_tools//tools/build_defs/repo:http.bzl\", \"http_archive\")\n" +
    "\n" +
    "rules_jvm_external_version = \"4.0\"\n" +
    "http_archive(\n" +
    "    name = \"rules_jvm_external\",\n" +
    "    urls = [\"https://github.com/bazelbuild/rules_jvm_external/archive/%s.zip\" % rules_jvm_external_version],\n" +
    "    strip_prefix = \"rules_jvm_external-%s\" % rules_jvm_external_version,\n" +
    ")\n" +
    "\n" +
    "load(\"@rules_jvm_external//:defs.bzl\", \"maven_install\")\n" +
    "maven_install(\n" +
    "    artifacts = ["

  /** Closes the artifact list and opens the repositories list. */
  const RepositoriesHeader: string := "],\nrepositories = ["

  /** Closes the repositories list and the `maven_install` call. */
  const Closing: string := "    ],\n)"

  /** One entry of the artifact list in the WORKSPACE document. */
  function ArtifactLine(coordinate: string): string {
    "        \"" + coordinate + "\",\n"
  }

  /** One entry of the repositories list in the WORKSPACE document. */
  function RepositoryLine(url: string): string {
    "                    \"" + url + "\",\n"
  }

  /** The BUILD line that refers to a dependency by its label. */
  function DepsLine(coordinate: string): string {
    "deps = [\"" + MavenLabel(coordinate) + "\"]\n"
  }

  /** The executable-target stanza of a task with a main class. */
  function JavaBinary(name: string, mainClass: string): string {
    "java_binary(\n" +
    "    name = \"" + name + "\",\n" +
    "    main_class = \"" + mainClass + "\",\n" +
    "    runtime_deps = [\":my_library\"],\n" +
    ")"
  }

  function ArtifactLines(coordinates: seq<string>): string {
    if coordinates == [] then ""
    else ArtifactLines(coordinates[..|coordinates| - 1]) + ArtifactLine(coordinates[|coordinates| - 1])
  }

  function DepsLines(coordinates: seq<string>): string {
    if coordinates == [] then ""
    else DepsLines(coordinates[..|coordinates| - 1]) + DepsLine(coordinates[|coordinates| - 1])
  }

  function RepositoryLines(urls: seq<string>): string {
    if urls == [] then ""
    else RepositoryLines(urls[..|urls| - 1]) + RepositoryLine(urls[|urls| - 1])
  }

  lemma {:induction false} ArtifactLinesConcat(a: seq<string>, b: seq<string>)
    ensures ArtifactLines(a + b) == ArtifactLines(a) + ArtifactLines(b)
  {
    if b != [] {
      var front := b[..|b| - 1];
      assert (a + b)[..|a + b| - 1] == a + front;
      ArtifactLinesConcat(a, front);
      var line := ArtifactLine(b[|b| - 1]);
      assert ArtifactLines(a + b) == ArtifactLines(a + front) + line;
      assert ArtifactLines(b) == ArtifactLines(front) + line;
    } else {
      assert a + b == a;
    }
  }

  lemma ArtifactLinesPair(a: string, b: string)
    ensures ArtifactLines([a, b]) == ArtifactLine(a) + ArtifactLine(b)
  {
    assert [a, b][..1] == [a];
    assert [a][..0] == [];
    assert ArtifactLines([a]) == "" + ArtifactLine(a);
    assert "" + ArtifactLine(a) == ArtifactLine(a);
  }

  lemma RepositoryLinesSingle(u: string)
    ensures RepositoryLines([u]) == RepositoryLine(u)
  {
    assert [u][..0] == [];
    assert "" + RepositoryLine(u) == RepositoryLine(u);
  }

  lemma DepsLinesPair(a: string, b: string)
    ensures DepsLines([a, b]) == DepsLine(a) + DepsLine(b)
  {
    assert [a, b][..1] == [a];
    assert [a][..0] == [];
    assert DepsLines([a]) == "" + DepsLine(a);
    assert "" + DepsLine(a) == DepsLine(a);
  }
}
