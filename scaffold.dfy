/**
 * The fallback suggestion built when no template matches (`fallback_scaffold`):
 * a fixed-shape record whose naming fields are joins of the detected stack.
 */
module Scaffold {
  import opened AsciiStrings

  /** The `cookiecutter.json` entry of the suggested scaffold. */
  datatype CookiecutterConfig = CookiecutterConfig(
    projectName: string,
    projectSlug: string,
    authorName: string,
    description: string,
    port: string)

  /** The `template_scaffold` mapping: its two keys become the two fields. */
  datatype TemplateScaffold = TemplateScaffold(
    cookiecutterJson: CookiecutterConfig,
    folderStructure: seq<string>)

  datatype FallbackScaffold = FallbackScaffold(
    error: string,
    suggestion: string,
    templateScaffold: TemplateScaffold)

  const NoMatchError: string := "\U{274C} No matching template found for the given stack."
  const Suggestion: string :=
    "You can create a new Cookiecutter template for this stack. Here's a sample structure to get you started."
  const SlugSuffix: string := "_microservice"
  const FolderStructure: seq<string> := [
    "{{cookiecutter.project_slug}}/",
    "\U{251C}\U{2500}\U{2500} app.main",
    "\U{251C}\U{2500}\U{2500} Dockerfile",
    "\U{251C}\U{2500}\U{2500} observability.yaml",
    "\U{251C}\U{2500}\U{2500} test/",
    "\U{2502}   \U{2514}\U{2500}\U{2500} app.test"
  ]

  /** `fallback_scaffold`: total for every detected stack, the empty one included. */
  function Fallback(detected: seq<string>): (r: FallbackScaffold)
    ensures r.error != [] && r.suggestion != []
    ensures |r.templateScaffold.folderStructure| == 6
  {
    var stackLabel := Join(", ", detected);
    FallbackScaffold(
      NoMatchError,
      Suggestion,
      TemplateScaffold(
        CookiecutterConfig(
          "My " + stackLabel + " Microservice",
          Join("_", detected) + SlugSuffix,
          "Your Name",
          "A simple " + stackLabel + " microservice template with basic observability, Docker, and tests",
          "3000"),
        FolderStructure))
  }

  /** Everything but the three naming fields is the same whatever stack was detected. */
  lemma FallbackFixedFields(d1: seq<string>, d2: seq<string>)
    ensures Fallback(d1).error == Fallback(d2).error == NoMatchError
    ensures Fallback(d1).suggestion == Fallback(d2).suggestion == Suggestion
    ensures Fallback(d1).templateScaffold.folderStructure == Fallback(d2).templateScaffold.folderStructure
    ensures Fallback(d1).templateScaffold.folderStructure[0] == "{{cookiecutter.project_slug}}/"
    ensures Fallback(d1).templateScaffold.cookiecutterJson.authorName == "Your Name"
    ensures Fallback(d1).templateScaffold.cookiecutterJson.port == "3000"
  {
  }

  /**
   * The project name and the description carry the same comma-separated stack
   * label, between fixed words.
   */
  lemma FallbackLabelsAgree(detected: seq<string>)
    ensures var c := Fallback(detected).templateScaffold.cookiecutterJson;
            var stackLabel := Join(", ", detected);
            && c.projectName == "My " + stackLabel + " Microservice"
            && c.description[..9 + |stackLabel|] == "A simple " + stackLabel
            && c.projectName[3..3 + |stackLabel|] == c.description[9..9 + |stackLabel|]
  {
  }

  /**
   * The project slug is the underscore join of the stack followed by
   * "microservice": when the stack is non-empty and no tag contains '_',
   * splitting the slug on '_' recovers the stack exactly.
   */
  lemma FallbackSlugRoundTrip(detected: seq<string>)
    requires detected != []
    requires forall i :: 0 <= i < |detected| ==> '_' !in detected[i]
    ensures Split('_', Fallback(detected).templateScaffold.cookiecutterJson.projectSlug)
            == detected + ["microservice"]
  {
    var tags := detected + ["microservice"];
    JoinSnoc("_", detected, "microservice");
    assert Join("_", tags) == Fallback(detected).templateScaffold.cookiecutterJson.projectSlug;
    assert forall i :: 0 <= i < |tags| ==> '_' !in tags[i] by {
      forall i | 0 <= i < |tags| ensures '_' !in tags[i] {
        if i < |detected| { assert tags[i] == detected[i]; }
      }
    }
    SplitJoin('_', tags);
  }

  /** A single detected tag names the project after that tag alone. */
  lemma FallbackSingleTag()
    ensures Fallback(["rust"]).templateScaffold.cookiecutterJson.projectSlug == "rust_microservice"
    ensures Fallback(["rust"]).templateScaffold.cookiecutterJson.projectName == "My rust Microservice"
  {
  }

  /** The empty stack still gives a complete record, with empty joins. */
  lemma FallbackEmptyStack()
    ensures Fallback([]).templateScaffold.cookiecutterJson.projectSlug == "_microservice"
    ensures Fallback([]).templateScaffold.cookiecutterJson.projectName == "My  Microservice"
  {
  }

  /** Two tags are joined with "_" in the slug and with ", " in the name. */
  lemma FallbackTwoTags()
    ensures Fallback(["go", "gin"]).templateScaffold.cookiecutterJson.projectSlug == "go_gin_microservice"
    ensures Fallback(["go", "gin"]).templateScaffold.cookiecutterJson.projectName == "My go, gin Microservice"
  {
    assert ["go", "gin"][1..] == ["gin"];
    assert Join("_", ["go", "gin"]) == "go_gin";
    assert Join(", ", ["go", "gin"]) == "go, gin";
  }
}
