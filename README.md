# Developer template recommender: verified model of the stack-matching core

The command-line assistant asks a hosted language model to name the technology
stack of a project description, normalises the `stack` list it gets back,
looks for the first golden-path template whose tags occur in that list, and,
when none does, builds a fallback cookiecutter scaffold whose names are joins
of the detected tags. This project models those pure steps in Dafny and proves
their properties:

- `wrappers.dfy` (`Wrappers`): the `Option` type.
- `ascii_strings.dfy` (`AsciiStrings`): Python's `str.lower()`, `str.strip()`,
  `str.join` and `str.split` (one-character separator) over ASCII.
- `templates.dfy` (`Templates`): the template record, the shipped catalogue,
  the qualification test, and the first-match search with soundness, completeness
  and first-match lemmas.
- `scaffold.dfy` (`Scaffold`): the fallback record and the facts about its
  fixed fields and its joined naming fields, including a split round trip for
  the project slug.
- `session.dfy` (`Session`): the classification of a console line, the
  normalisation of the `stack` field, the decision one parsed response leads to,
  and the scaffold-confirmation answer.

The language-model call and JSON decoding are inputs: a response decodes either
to `NotJson` or to `Json(stackField)`, where `stackField` is `None` when the
`stack` key is absent.

Two points about the matching that the code settles:

- The matcher alone is not case-insensitive. Only the template's own tag is
  lower-cased; the detected stack is compared as given. A response's tags match
  regardless of case only because the caller lower-cases the detected stack first.
  `Templates.GoldenPathCaseSensitive` shows that `["Python", "FLASK"]` finds
  nothing; `Session.GoldenPathMatchOfRawStack` shows the same tags matching once
  they are normalised.
- The match is exact element membership of a list, not a substring test, and so
  is the model's.

## Model

| member | source | states |
|---|---|---|
| `AsciiStrings.Lower` | cli_ai_assistant1.py:99 | lower-casing keeps the length and maps each character by the ASCII rule at its position |
| `AsciiStrings.LowerIdempotent` | cli_ai_assistant1.py:99 | lower-casing an already lower-cased string changes nothing |
| `AsciiStrings.LowerOfNoUpper` | cli_ai_assistant1.py:41 | a string with no upper-case letter is its own lower-case form, as the shipped tags are |
| `AsciiStrings.StripLeft` | cli_ai_assistant1.py:99 | the result is a suffix of the input, everything removed is whitespace, and it does not start with whitespace |
| `AsciiStrings.StripRight` | cli_ai_assistant1.py:99 | the result is a prefix of the input, everything removed is whitespace, and it does not end with whitespace |
| `AsciiStrings.Strip` | cli_ai_assistant1.py:87 | the result neither starts nor ends with whitespace, and it is empty exactly when the input is all whitespace |
| `AsciiStrings.StripIsSlice` | cli_ai_assistant1.py:99 | the stripped string is a contiguous slice of the input with only whitespace outside it |
| `AsciiStrings.StripPadded` | cli_ai_assistant1.py:87 | whitespace padding around a stripped text is exactly what stripping removes |
| `AsciiStrings.StripIdempotent` | cli_ai_assistant1.py:99 | stripping twice equals stripping once |
| `AsciiStrings.LowerStripCommute` | cli_ai_assistant1.py:99 | lower-casing and stripping commute |
| `AsciiStrings.Join` | cli_ai_assistant1.py:47 | joining no element gives the empty string and joining one element gives that element |
| `AsciiStrings.JoinSnoc` | cli_ai_assistant1.py:54 | appending an element to a non-empty list adds the separator and that element to the join |
| `AsciiStrings.SplitJoin` | cli_ai_assistant1.py:54 | splitting a join on its one-character separator recovers a non-empty list whose elements do not contain the separator |
| `Templates.AnyTagIn` | cli_ai_assistant1.py:41 | the short-circuiting scan over a template's tags holds exactly when some tag, lower-cased, is an element of the detected stack |
| `Templates.Qualifies` | cli_ai_assistant1.py:41 | a template qualifies exactly when one of its tags, lower-cased, is an element of the detected stack |
| `Templates.FirstMatch` | cli_ai_assistant1.py:39-43 | the reference search returns only a template of the list that qualifies |
| `Templates.FirstMatchSound` | cli_ai_assistant1.py:40-42 | a returned template sits at a position where it qualifies and no earlier template qualifies |
| `Templates.FirstMatchAt` | cli_ai_assistant1.py:40-42 | the template at the earliest qualifying position is the one returned |
| `Templates.FirstMatchNone` | cli_ai_assistant1.py:40-43 | nothing is returned exactly when no template in the list qualifies |
| `Templates.FindMatchingTemplate` | cli_ai_assistant1.py:39-43 | the loop returns the reference first match: the earliest qualifying template, or nothing exactly when none qualifies |
| `Templates.GoldenPathCatalogue` | cli_ai_assistant1.py:11-21 | the shipped catalogue holds a single template whose tags are already lower-case |
| `Templates.GoldenPathMatch` | cli_ai_assistant1.py:11-21 | with the shipped catalogue a template is found exactly when "python" or "flask" is an element of the detected stack |
| `Templates.GoldenPathNoSubstringMatch` | cli_ai_assistant1.py:41 | "pythonic" and "rust" find nothing: membership is by element, not substring |
| `Templates.GoldenPathCaseSensitive` | cli_ai_assistant1.py:41 | un-normalised "Python"/"FLASK" find nothing, while "python" with "flask" finds the template |
| `Scaffold.Fallback` | cli_ai_assistant1.py:46-68 | the fallback is total, with a non-empty error and suggestion and a six-entry folder structure |
| `Scaffold.FallbackFixedFields` | cli_ai_assistant1.py:49-66 | error, suggestion, folder structure, author name and port "3000" are the same for every detected stack |
| `Scaffold.FallbackLabelsAgree` | cli_ai_assistant1.py:47-56 | the project name and the description embed the same comma-separated stack label |
| `Scaffold.FallbackSlugRoundTrip` | cli_ai_assistant1.py:54 | splitting the project slug on '_' gives back the stack followed by "microservice" |
| `Scaffold.FallbackSingleTag` | cli_ai_assistant1.py:53-54 | `["rust"]` gives slug "rust_microservice" and name "My rust Microservice" |
| `Scaffold.FallbackEmptyStack` | cli_ai_assistant1.py:53-54 | the empty stack gives slug "_microservice" and name "My  Microservice" |
| `Scaffold.FallbackTwoTags` | cli_ai_assistant1.py:47-54 | two tags are joined with "_" in the slug and with ", " in the name |
| `Session.ClassifyInput` | cli_ai_assistant1.py:87-92 | a line ends the session exactly when its stripped, lower-cased form is "exit"; it is rejected exactly when it is all whitespace; otherwise its stripped, non-blank text goes on to detection |
| `Session.ClassifyPaddedExit` | cli_ai_assistant1.py:87-89 | a line whose inner text lower-cases to "exit", in any letter case and with any whitespace around it, ends the session |
| `Session.ClassifyInputExit` | cli_ai_assistant1.py:87-89 | " EXIT\n" ends the session |
| `Session.ClassifyInputBlank` | cli_ai_assistant1.py:90-92 | blank and empty lines are rejected |
| `Session.ClassifyPaddedQuery` | cli_ai_assistant1.py:87-92 | a padded line whose inner text is not a spelling of "exit" goes on as that inner text |
| `Session.ClassifyInputQuery` | cli_ai_assistant1.py:87-92 | " exit now " goes on as the query "exit now" |
| `Session.NormalizeTag` | cli_ai_assistant1.py:99 | a normalised tag has no upper-case letter and no leading or trailing whitespace |
| `Session.NormalizeTagIdempotent` | cli_ai_assistant1.py:99 | normalising a normalised tag changes nothing |
| `Session.NormalizeTagEitherOrder` | cli_ai_assistant1.py:99 | lower-casing then stripping equals stripping then lower-casing |
| `Session.NormalizePadded` | cli_ai_assistant1.py:99 | a whitespace-padded tag normalises to its lower-cased inner text |
| `Session.NormalizeAll` | cli_ai_assistant1.py:99 | the comprehension keeps length and order and normalises the tag at each position |
| `Session.DetectedStack` | cli_ai_assistant1.py:99 | a missing `stack` key gives the empty stack; otherwise the length is kept and every entry is lower-case and stripped |
| `Session.DetectedStackPointwise` | cli_ai_assistant1.py:99 | each detected entry is the input entry at the same position, stripped and lower-cased |
| `Session.DetectedStackOfNormalized` | cli_ai_assistant1.py:99 | a stack that is already normalised is detected unchanged |
| `Session.GoldenPathMatchOfRawStack` | cli_ai_assistant1.py:99-102 | a response matches the shipped template exactly when one of its raw tags, stripped and lower-cased, is "python" or "flask" |
| `Session.HandleResponse` | cli_ai_assistant1.py:97-120 | an undecodable response is shown verbatim; a decoded one yields the normalised stack and either the shipped template, exactly when "python" or "flask" was detected, or the fallback for that stack |
| `Session.Confirmed` | cli_ai_assistant1.py:113-114 | the scaffold prompt is accepted exactly when the stripped answer is "y" or "Y" |

## Left out

- The language-model client and prompt template (cli_ai_assistant1.py:24-36, 75-84, 94): a network call through a library whose behaviour is not visible here. Its response is an input of `Session.HandleResponse`.
- JSON decoding and encoding (cli_ai_assistant1.py:98, 108): the decoded response is an input of type `Session.Parsed`. `Json(stackField)` assumes the response decodes to a JSON object whose `stack` key, if present, holds a list of strings. The other outcomes of line 99 are not modelled:
  - valid JSON that is not an object (`42`, `["python"]`): `.get` raises `AttributeError`, which is not a decode error, so the traceback handler at lines 124-127 reports it instead of showing the raw text;
  - `"stack": null`: iterating `None` raises `TypeError`, reported by the same handler;
  - a non-string list entry: `lower()` raises, reported by the same handler;
  - `"stack": "Python"`: the comprehension iterates the characters of the string. This is `Json(Some(["P", "y", "t", "h", "o", "n"]))`, one one-character tag per character; it matches nothing and gives the slug `"p_y_t_h_o_n_microservice"`.
- The console loop, `input`, `print`, `load_dotenv`, `os.getenv` and the exception and traceback reporting (cli_ai_assistant1.py:8, 70-86, 100, 105-112, 122-127): I/O and control flow around the pure decisions. Only the per-line decision (`Session.ClassifyInput`) and the per-response decision (`Session.HandleResponse`) are modelled.
- The `cookiecutter` subprocess (cli_ai_assistant1.py:115-117): an external process that writes files. Only the yes/no decision before it is modelled (`Session.Confirmed`).
- `app/main.py`: Flask route registration and a Prometheus counter. This is framework and library glue with no logic of its own.
- AsciiStrings.Lower: models only ASCII case mapping. Non-ASCII characters are left unchanged, while Python's `str.lower()` maps non-ASCII letters too, sometimes to more than one character.
- AsciiStrings.Strip: treats only the ASCII whitespace characters as whitespace (space, tab, line feed, vertical tab, form feed, carriage return and U+001C to U+001F). Python's `str.strip()` also removes non-ASCII whitespace such as U+0085 and U+00A0.
- Session.HandleResponse: the "truthiness" test `if not template` is modelled as a test for `None`. This is the same thing here, because every template is a non-empty dictionary.
