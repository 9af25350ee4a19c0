/**
 * The pure decisions of one turn of the assistant's console session: how an
 * input line is classified, how the model's `stack` field is normalised, which
 * recommendation a parsed response leads to, and how the scaffold prompt is
 * answered. The console, the language-model call and JSON decoding are inputs.
 */
module Session {
  import opened Wrappers
  import opened AsciiStrings
  import opened Templates
  import opened Scaffold

  // ---------------------------------------------------------------------------
  // Input classification
  // ---------------------------------------------------------------------------

  /** What the loop does with one line typed at the prompt. */
  datatype InputKind = Exit | Empty | Query(description: string)

  /** The decision applied to a line after `strip()`: exit, reprompt, or describe a project. */
  function ClassifyInput(line: string): (r: InputKind)
    ensures r == Exit <==> Lower(Strip(line)) == "exit"
    ensures r == Empty <==> forall k :: 0 <= k < |line| ==> IsSpace(line[k])
    ensures r.Query? ==> r.description == Strip(line) && r.description != [] && IsStripped(r.description)
  {
    var u := Strip(line);
    if Lower(u) == "exit" then Exit
    else if u == [] then Empty
    else Query(u)
  }

  /** "exit" is recognised in any letter case and with any whitespace around it. */
  lemma ClassifyPaddedExit(p: string, m: string, q: string)
    requires forall k :: 0 <= k < |p| ==> IsSpace(p[k])
    requires forall k :: 0 <= k < |q| ==> IsSpace(q[k])
    requires Lower(m) == "exit"
    ensures ClassifyInput(p + m + q) == Exit
  {
    LowerCharKeepsSpace(m[0]);
    LowerCharKeepsSpace(m[3]);
    StripPadded(p, m, q);
  }

  /** " EXIT\n" ends the session. */
  lemma ClassifyInputExit()
    ensures ClassifyInput(" EXIT\n") == Exit
  {
    assert " EXIT\n" == " " + "EXIT" + "\n";
    ClassifyPaddedExit(" ", "EXIT", "\n");
  }

  /** A blank line is rejected without being treated as a query. */
  lemma ClassifyInputBlank()
    ensures ClassifyInput(" \t ") == Empty
    ensures ClassifyInput("") == Empty
  {
  }

  /** A padded line whose stripped text is not a spelling of "exit" is passed on as that text. */
  lemma ClassifyPaddedQuery(p: string, m: string, q: string)
    requires forall k :: 0 <= k < |p| ==> IsSpace(p[k])
    requires forall k :: 0 <= k < |q| ==> IsSpace(q[k])
    requires IsStripped(m) && m != [] && Lower(m) != "exit"
    ensures ClassifyInput(p + m + q) == Query(m)
  {
    StripPadded(p, m, q);
  }

  /** Text that merely starts with "exit" is a query, passed on stripped. */
  lemma ClassifyInputQuery()
    ensures ClassifyInput(" exit now ") == Query("exit now")
  {
    assert " exit now " == " " + "exit now" + " ";
    StripPadded(" ", "exit now", " ");
  }

  // ---------------------------------------------------------------------------
  // Stack normalisation
  // ---------------------------------------------------------------------------

  /** One tag as the assistant stores it: `tag.lower().strip()`. */
  function NormalizeTag(tag: string): (r: string)
    ensures NoUpper(r) && IsStripped(r)
  {
    var l := Lower(tag);
    var r := Strip(l);
    StripOfLowerHasNoUpper(l);
    r
  }

  lemma StripOfLowerHasNoUpper(l: string)
    requires NoUpper(l)
    ensures NoUpper(Strip(l))
  {
    var lo, hi := StripIsSlice(l);
  }

  /** Normalising twice is the same as normalising once. */
  lemma NormalizeTagIdempotent(tag: string)
    ensures NormalizeTag(NormalizeTag(tag)) == NormalizeTag(tag)
  {
    var n := NormalizeTag(tag);
    LowerOfNoUpper(n);
    StripOfStripped(n);
  }

  /** The order of the two steps does not matter: stripping first gives the same tag. */
  lemma NormalizeTagEitherOrder(tag: string)
    ensures NormalizeTag(tag) == Lower(Strip(tag))
  {
    LowerStripCommute(tag);
  }

  /** Normalising a padded tag lower-cases the text inside the padding. */
  lemma NormalizePadded(p: string, m: string, q: string)
    requires forall k :: 0 <= k < |p| ==> IsSpace(p[k])
    requires forall k :: 0 <= k < |q| ==> IsSpace(q[k])
    requires IsStripped(m)
    ensures NormalizeTag(p + m + q) == Lower(m)
  {
    NormalizeTagEitherOrder(p + m + q);
    StripPadded(p, m, q);
  }

  /** Every tag of a list normalised, in the same order. */
  function NormalizeAll(tags: seq<string>): (r: seq<string>)
    ensures |r| == |tags|
    ensures forall i :: 0 <= i < |tags| ==> r[i] == NormalizeTag(tags[i])
  {
    if tags == [] then [] else [NormalizeTag(tags[0])] + NormalizeAll(tags[1..])
  }

  /**
   * The detected stack: the `stack` field of the parsed response, or the empty
   * list when the field is missing, with every entry normalised.
   */
  function DetectedStack(stackField: Option<seq<string>>): (r: seq<string>)
    ensures stackField.None? ==> r == []
    ensures stackField.Some? ==> |r| == |stackField.value|
    ensures forall i :: 0 <= i < |r| ==> NoUpper(r[i]) && IsStripped(r[i])
  {
    match stackField
    case None => []
    case Some(tags) => NormalizeAll(tags)
  }

  /** Each detected tag is the lower-cased, stripped tag at the same position. */
  lemma DetectedStackPointwise(tags: seq<string>, i: int)
    requires 0 <= i < |tags|
    ensures DetectedStack(Some(tags))[i] == Lower(Strip(tags[i]))
  {
    NormalizeTagEitherOrder(tags[i]);
  }

  /** An already normalised stack is left as it is. */
  lemma DetectedStackOfNormalized(tags: seq<string>)
    requires forall i :: 0 <= i < |tags| ==> NoUpper(tags[i]) && IsStripped(tags[i])
    ensures DetectedStack(Some(tags)) == tags
  {
    forall i | 0 <= i < |tags| ensures NormalizeTag(tags[i]) == tags[i] {
      LowerOfNoUpper(tags[i]);
      StripOfStripped(tags[i]);
    }
  }

  // ---------------------------------------------------------------------------
  // One turn
  // ---------------------------------------------------------------------------

  /** The model's response after JSON decoding: not JSON, or an object with an optional `stack`. */
  datatype Parsed = NotJson | Json(stackField: Option<seq<string>>)

  /** The decision a turn leads to once the raw response has been printed. */
  datatype Turn =
    | RawOutput(response: string)
    | Recommended(detected: seq<string>, template: Template)
    | Suggested(detected: seq<string>, fallback: FallbackScaffold)

  /**
   * Handles one model response: an undecodable response is shown verbatim;
   * otherwise the stack is normalised and either the first matching catalogue
   * template is recommended or the fallback scaffold is suggested.
   */
  method HandleResponse(response: string, parsed: Parsed) returns (turn: Turn)
    ensures parsed.NotJson? <==> turn == RawOutput(response)
    ensures parsed.Json? ==> !turn.RawOutput? && turn.detected == DetectedStack(parsed.stackField)
    ensures turn.Recommended? <==>
              parsed.Json? && ("python" in turn.detected || "flask" in turn.detected)
    ensures turn.Recommended? ==> turn.template == GoldenPathTemplates[0]
    ensures turn.Suggested? ==> turn.fallback == Fallback(turn.detected)
  {
    match parsed
    case NotJson =>
      turn := RawOutput(response);
    case Json(stackField) =>
      var detected := DetectedStack(stackField);
      var template := FindMatchingTemplate(GoldenPathTemplates, detected);
      GoldenPathMatch(detected);
      if template.None? {
        turn := Suggested(detected, Fallback(detected));
      } else {
        turn := Recommended(detected, template.value);
      }
  }

  /** The tags of the shipped template. */
  predicate IsGoldenPathTag(tag: string) {
    tag == "python" || tag == "flask"
  }

  /**
   * Because normalisation comes first, a response matches the shipped template
   * exactly when one of its raw tags, stripped and lower-cased, is "python" or
   * "flask": " Python " and "FLASK" match although the search itself lower-cases
   * only the template's tags.
   */
  lemma GoldenPathMatchOfRawStack(tags: seq<string>)
    ensures FirstMatch(GoldenPathTemplates, DetectedStack(Some(tags))).Some?
            <==> exists i :: 0 <= i < |tags| && IsGoldenPathTag(Lower(Strip(tags[i])))
  {
    var d := DetectedStack(Some(tags));
    GoldenPathMatch(d);
    assert "python" in d || "flask" in d <==> exists i :: 0 <= i < |d| && IsGoldenPathTag(d[i]);
    forall i | 0 <= i < |tags| ensures d[i] == Lower(Strip(tags[i])) {
      DetectedStackPointwise(tags, i);
    }
  }

  // ---------------------------------------------------------------------------
  // Scaffold confirmation
  // ---------------------------------------------------------------------------

  /** The answer to the scaffold prompt, `answer.strip().lower() == 'y'`. */
  function Confirmed(answer: string): (r: bool)
    ensures r <==> Strip(answer) == "y" || Strip(answer) == "Y"
  {
    var u := Strip(answer);
    assert Lower(u) == "y" <==> u == "y" || u == "Y" by {
      if |u| == 1 {
        assert Lower(u) == [LowerChar(u[0])];
        assert u == [u[0]];
      }
    }
    Lower(u) == "y"
  }
}
