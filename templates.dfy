/**
 * The golden-path template catalogue and the first-match search over it
 * (`GOLDEN_PATH_TEMPLATES` and `find_matching_template`).
 */
module Templates {
  import opened Wrappers
  import opened AsciiStrings

  /** One scaffold template: an immutable record defined at start-up. */
  datatype Template = Template(
    name: string,
    stack: seq<string>,
    framework: string,
    docker: bool,
    observability: seq<string>,
    testFrameworks: seq<string>,
    repoUrl: string)

  /** The shipped catalogue: a single Flask/Python microservice template. */
  const GoldenPathTemplates: seq<Template> := [
    Template(
      "Golden Path Microservice (Flask, Python)",
      ["python", "flask"],
      "Flask",
      true,
      ["Prometheus", "Grafana"],
      ["pytest"],
      "https://github.com/ramannkhanna2/cookiecutter-golden-path.git")
  ]

  /**
   * A template qualifies for a detected stack when one of its own tags,
   * lower-cased, is an element (not a substring) of the detected stack.
   * Only the template's tag is lower-cased; the detected stack is compared as given.
   */
  predicate Qualifies(t: Template, detected: seq<string>)
    ensures Qualifies(t, detected) <==> exists k :: 0 <= k < |t.stack| && Lower(t.stack[k]) in detected
  {
    AnyTagIn(t.stack, detected)
  }

  /** The short-circuiting `any(tech.lower() in detected for tech in tags)`. */
  predicate AnyTagIn(tags: seq<string>, detected: seq<string>)
    ensures AnyTagIn(tags, detected) <==> exists k :: 0 <= k < |tags| && Lower(tags[k]) in detected
  {
    tags != [] && (Lower(tags[0]) in detected || AnyTagIn(tags[1..], detected))
  }

  /** `templates[i]` is the earliest template of the list that qualifies. */
  predicate IsFirstMatchAt(templates: seq<Template>, detected: seq<string>, i: int) {
    && 0 <= i < |templates|
    && Qualifies(templates[i], detected)
    && forall j :: 0 <= j < i ==> !Qualifies(templates[j], detected)
  }

  /** Reference definition of the search: the first qualifying template, if any. */
  function FirstMatch(templates: seq<Template>, detected: seq<string>): (r: Option<Template>)
    ensures r.Some? ==> r.value in templates && Qualifies(r.value, detected)
  {
    if templates == [] then None
    else if Qualifies(templates[0], detected) then Some(templates[0])
    else FirstMatch(templates[1..], detected)
  }

  /** Soundness: a returned template is the one at the earliest qualifying position. */
  lemma {:induction false} FirstMatchSound(templates: seq<Template>, detected: seq<string>)
    requires FirstMatch(templates, detected).Some?
    ensures exists i :: IsFirstMatchAt(templates, detected, i)
                        && templates[i] == FirstMatch(templates, detected).value
  {
    if !Qualifies(templates[0], detected) {
      FirstMatchSound(templates[1..], detected);
      var i :| IsFirstMatchAt(templates[1..], detected, i)
               && templates[1..][i] == FirstMatch(templates[1..], detected).value;
      assert IsFirstMatchAt(templates, detected, i + 1);
    } else {
      assert IsFirstMatchAt(templates, detected, 0);
    }
  }

  /** First match: when position `i` is the earliest qualifying one, its template is returned. */
  lemma {:induction false} FirstMatchAt(templates: seq<Template>, detected: seq<string>, i: int)
    requires IsFirstMatchAt(templates, detected, i)
    ensures FirstMatch(templates, detected) == Some(templates[i])
  {
    if i > 0 {
      assert !Qualifies(templates[0], detected);
      assert IsFirstMatchAt(templates[1..], detected, i - 1);
      FirstMatchAt(templates[1..], detected, i - 1);
    }
  }

  /** Completeness: nothing is returned exactly when no template of the list qualifies. */
  lemma {:induction false} FirstMatchNone(templates: seq<Template>, detected: seq<string>)
    ensures FirstMatch(templates, detected).None?
            <==> forall i :: 0 <= i < |templates| ==> !Qualifies(templates[i], detected)
  {
    if templates != [] {
      FirstMatchNone(templates[1..], detected);
      assert forall i :: 1 <= i < |templates| ==> templates[i] == templates[1..][i - 1];
    }
  }

  /**
   * `find_matching_template`: scans the list in order and returns the first
   * template that has a lower-cased tag in `detected`, or `None`.
   */
  method FindMatchingTemplate(templates: seq<Template>, detected: seq<string>) returns (r: Option<Template>)
    ensures r == FirstMatch(templates, detected)
    ensures r.Some? ==> exists i :: IsFirstMatchAt(templates, detected, i) && templates[i] == r.value
    ensures r.None? <==> forall i :: 0 <= i < |templates| ==> !Qualifies(templates[i], detected)
  {
    for i := 0 to |templates|
      invariant forall j :: 0 <= j < i ==> !Qualifies(templates[j], detected)
    {
      if Qualifies(templates[i], detected) {
        assert IsFirstMatchAt(templates, detected, i);
        FirstMatchAt(templates, detected, i);
        return Some(templates[i]);
      }
    }
    FirstMatchNone(templates, detected);
    return None;
  }

  /** The shipped catalogue holds one template, and its tags are already lower-case. */
  lemma GoldenPathCatalogue()
    ensures |GoldenPathTemplates| == 1
    ensures forall k :: 0 <= k < |GoldenPathTemplates[0].stack| ==>
              Lower(GoldenPathTemplates[0].stack[k]) == GoldenPathTemplates[0].stack[k]
  {
    var t := GoldenPathTemplates[0];
    LowerOfNoUpper(t.stack[0]);
    LowerOfNoUpper(t.stack[1]);
  }

  /** With the shipped catalogue, a template is found exactly when "python" or "flask" was detected. */
  lemma GoldenPathMatch(detected: seq<string>)
    ensures FirstMatch(GoldenPathTemplates, detected)
            == if "python" in detected || "flask" in detected then Some(GoldenPathTemplates[0]) else None
  {
    var t := GoldenPathTemplates[0];
    GoldenPathCatalogue();
    assert Lower(t.stack[0]) == "python" && Lower(t.stack[1]) == "flask";
    assert Qualifies(t, detected) <==> "python" in detected || "flask" in detected;
  }

  /** Matching is by element, not by substring: "pythonic" does not match "python". */
  lemma GoldenPathNoSubstringMatch()
    ensures FirstMatch(GoldenPathTemplates, ["pythonic"]) == None
    ensures FirstMatch(GoldenPathTemplates, ["rust"]) == None
  {
    GoldenPathMatch(["pythonic"]);
    GoldenPathMatch(["rust"]);
  }

  /** The search lower-cases only the template's tags, so an un-normalised stack does not match. */
  lemma GoldenPathCaseSensitive()
    ensures FirstMatch(GoldenPathTemplates, ["Python", "FLASK"]) == None
    ensures FirstMatch(GoldenPathTemplates, ["python", "flask"]) == Some(GoldenPathTemplates[0])
  {
    GoldenPathMatch(["Python", "FLASK"]);
    GoldenPathMatch(["python", "flask"]);
  }
}
