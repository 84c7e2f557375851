# Omnisight thinking-test core, in Dafny

Omnisight is a small Streamlit application. A candidate submits a résumé.
The application has a language model parse it into JSON and renders the
parsed record as Markdown. The candidate then answers two reasoning
questions. Each answer is graded by the model, and after the last one the
model writes a combined evaluation. The whole record is saved as a JSON file,
and a browser page lists the saved candidates newest first.

This project models the parts of `main.py` that decide what the application
computes:

- `format_resume`: the Markdown rendering of a parsed résumé (`resume_format.dfy`).
- The clean-up of the model's reply before `json.loads`, and the retry after
  a decoding error (`json_repair.dfy`).
- The defaulting of the bookkeeping keys in `save_candidate_to_file` (`candidate_store.dfy`).
- The session state machine of `main`: the résumé form, the assessment page,
  the combined-evaluation page and the sidebar buttons (`assessment.dfy`).
- The context string that `generate_combined_evaluation` sends to the model
  (`assessment.dfy`).
- The browser's stable newest-first sort (`candidate_browser.dfy`).

Supporting modules:

- `dicts.dfy`: Python dictionaries with their insertion order.
- `text.dfy`: `str.strip`, `str.replace`, `str.join`, lowering and string `<`.
- `json_value.dfy`: JSON values.
- `wrappers.dfy`: `Option`.

Code that renders by appending to a string (`format_resume`), or that loops
(the context builder), is written as methods. Each method is proved equal to
a function, and the properties are proved as lemmas about those functions.
Python state that is updated in place is modelled as a class:

- `st.session_state` is `Session`.
- The record handed to `save_candidate_to_file` is `CandidateRecord`.
- The browser's `candidates` list is `Browser`.

## Model

| member | source | states |
|---|---|---|
| `ResumeFormat.FormatResume` | main.py:404-550 | The appending procedure returns exactly `Render(parsed)`: the failure text when nothing was parsed, else the title followed by the eight sections in their fixed order |
| `ResumeFormat.FailureTextOnlyWithoutResume` | main.py:406-409 | The output is "Error: Failed to parse resume" if and only if parsing failed; otherwise it starts with "### Resume Summary" |
| `ResumeFormat.SectionHeaded` | main.py:411-548 | A section is non-empty if and only if its field is truthy, and a non-empty section begins with its own header |
| `ResumeFormat.AbsentSectionIsSkipped` | main.py:411-548 | A section whose field is falsy adds no text: the next section starts at the same offset |
| `ResumeFormat.HeaderAtOffset` | main.py:409-548 | The header of every truthy section stands in the output at that section's offset |
| `ResumeFormat.HeadersInFixedOrder` | main.py:411-548 | For sections m before n that are both truthy, the header of m ends before the header of n begins, and both are in the output at their offsets |
| `ResumeFormat.DegreeLine` | main.py:439-455 | The degree line is empty if and only if there is no degree; otherwise it starts with "- " and the degree, and ends with a newline |
| `ResumeFormat.ExpectedGraduationLine` | main.py:457-461 | The graduation date adds only its own line at one place in the entry, and that line is present exactly when the date is non-empty, is not "present" in any letter case, and has no '-' |
| `ResumeFormat.SkillGroupEntry` | main.py:544-548 | A skill group renders to nothing if and only if its category is empty or missing |
| `ResumeFormat.UnnamedSkillGroupsContributeNothing` | main.py:541-548 | The skills section equals the rendering of only the groups that have a category, in their order |
| `ResumeFormat.ContactHeaderFromAnyKey` | main.py:412-423 | For every contact map with some truthy value but none under name, email, phone or location, the section is the contact header followed by a blank line and no field line |
| `ResumeFormat.AppendOptLine` | main.py:415-416 | `if v: output += f"{prefix}{v}\n"` appends exactly `OptLine(prefix, v)` |
| `ResumeFormat.AppendBulletList` | main.py:466-469 | A label line followed by one `  * item` line per item, appended only when there are items |
| `ResumeFormat.AppendContact` | main.py:412-423 | Appends exactly the contact section |
| `ResumeFormat.AppendSummary` | main.py:426-428 | Appends exactly the summary section |
| `ResumeFormat.AppendDegreeLine` | main.py:439-455 | Appends exactly `DegreeLine(e)` |
| `ResumeFormat.AppendEducationEntry` | main.py:434-474 | Appends exactly one education entry |
| `ResumeFormat.AppendExperienceEntry` | main.py:480-491 | Appends exactly one experience entry |
| `ResumeFormat.AppendProjectEntry` | main.py:497-508 | Appends exactly one project entry |
| `ResumeFormat.AppendExtracurricularEntry` | main.py:514-523 | Appends exactly one extracurricular entry |
| `ResumeFormat.AppendSportEntry` | main.py:529-538 | Appends exactly one sports entry |
| `ResumeFormat.AppendSkillGroup` | main.py:544-548 | Appends exactly one skill group, which is nothing when the category is empty |
| `ResumeFormat.AppendEducation` | main.py:431-474 | Appends exactly the education section: the header and every entry in order |
| `ResumeFormat.AppendExperience` | main.py:477-491 | Appends exactly the experience section |
| `ResumeFormat.AppendProjects` | main.py:494-508 | Appends exactly the projects section |
| `ResumeFormat.AppendExtracurriculars` | main.py:511-523 | Appends exactly the extracurriculars section |
| `ResumeFormat.AppendSports` | main.py:526-538 | Appends exactly the sports section |
| `ResumeFormat.AppendSkills` | main.py:541-548 | Appends exactly the skills section |
| `ResumeFormat.AppendSection` | main.py:411-548 | Appends exactly the text of the section it is given |
| `JsonRepair.RemoveFences` | main.py:348 | After both replacements no "```" is left in the text |
| `JsonRepair.DeletionLeavesNoFence` | main.py:348 | Deleting every "```" from left to right cannot bring a new "```" together |
| `JsonRepair.ExtractObject` | main.py:351-353 | The pattern matches if and only if the first `{` comes before the last `}`; the match is the span between them, and without a match the text is unchanged |
| `JsonRepair.DropTrailingCommasDeletesExactly` | main.py:356 | The left-to-right substitution deletes exactly the commas that are followed by whitespace and then `}` or `]`, and keeps every other character in place |
| `JsonRepair.EscapePairIsIdentity` | main.py:377 | Replacing `"` with `\"` and then `\"` with `"` gives back every string unchanged |
| `JsonRepair.RetryIsSecondCommaPass` | main.py:346-387 | `ParseReply` first decodes `CleanReply(reply)`, which is the chain of main.py:346-356: `RemoveFences`, `Strip`, `ExtractObject`, then `DropTrailingCommas`. It returns that decode when it succeeds, and otherwise the decode of the cleaned text after one more comma pass; the quote step of the retry changes nothing |
| `JsonRepair.SecondCommaPassCanChangeText` | main.py:375 | The second comma pass is not redundant: `[1,,]` becomes `[1,]` after one pass and `[1]` after two |
| `CandidateStore.CandidateRecord.Save` | main.py:18-43 | The record becomes `WithDefaults` of the old record, and the returned id is its `candidate_id` |
| `CandidateStore.PutIfMissingFacts` | main.py:21-22 | `if k not in d: d[k] = v` keeps every present key with its value and its position, keeps the keys unique, and leaves `k` holding its old value or else `v` |
| `CandidateStore.DefaultsKeepSuppliedKeys` | main.py:18-34 | Every key the caller supplied keeps its value and its position, and a record with unique keys keeps them unique |
| `CandidateStore.DefaultsFillBookkeepingKeys` | main.py:21-34 | Afterwards `candidate_id`, `timestamp`, `reason` and `test_type` are all present, each holding the caller's value or else the fresh id, the current time, "TESTING" or "reasoning" |
| `CandidateStore.DefaultsTouchNothingElse` | main.py:21-34 | No key other than the four bookkeeping keys is changed |
| `CandidateStore.DefaultsAreIdempotent` | main.py:21-34 | Saving an already saved record again changes nothing, whatever the new id and time |
| `CandidateBrowser.Insert` | main.py:827 | Inserting one record gives a permutation of the list with that record added |
| `CandidateBrowser.SortDescending` | main.py:827 | The sorted list is a permutation of the loaded list |
| `CandidateBrowser.InsertKeepsOrder` | main.py:827 | Inserting into a list ordered newest first keeps it ordered newest first |
| `CandidateBrowser.SortIsNonIncreasing` | main.py:827 | The sorted list is ordered by timestamp, newest first |
| `CandidateBrowser.InsertWithKey` | main.py:827 | An inserted record goes in front of the records with an equal timestamp |
| `CandidateBrowser.SortIsStable` | main.py:827 | Records with equal timestamps keep their loading order, as `list.sort` with `reverse=True` does |
| `CandidateBrowser.Browser.SortNewestFirst` | main.py:827 | The list is sorted in place: it is a permutation of the old list, ordered newest first, and stable |
| `Assessment.ReasoningQuestions` | main.py:65-82 | The two questions have the ids `ped_testing` and `iphone_rebuild`; the list is non-empty and no id occurs twice |
| `Assessment.FindQuestion` | main.py:123 | `next(...)` finds a question if and only if the id is one of the questions' ids, and the question found has that id |
| `Assessment.BuildSynthesisContext` | main.py:121-126 | The loop returns the header followed by one block per response, in insertion order; it returns None (Python raises) when some response has no question or no evaluation |
| `Assessment.ResolvableUpToMeansEach` | main.py:122-126 | The loop gets past its first n responses exactly when each of them has a question and an evaluation |
| `Assessment.ContextIsHeaderAndBlocks` | main.py:121-126 | A context that exists is the header followed by all the blocks |
| `Assessment.BlockQuotesResponse` | main.py:123-126 | In a context that exists, block n quotes question n's text, response n and evaluation n |
| `Assessment.ContextQuotesEachResponse` | main.py:121-126 | Each response's block stands in the context at its offset, and the block of every earlier response ends before it starts |
| `Assessment.NoContextWithout` | main.py:123-126 | One response without its question or its evaluation means there is no context |
| `Assessment.AllAnsweredResolves` | main.py:745-760 | When every answered question has a response and an evaluation stored in question order, the context can be built |
| `Assessment.PastedTextIsLostAsWritten` | main.py:689-698 | As written, a non-blank pasted résumé with no upload is dropped; the corrected input keeps it |
| `Assessment.ResumeInput` | main.py:689-698 | With no upload, a non-blank pasted text is submitted and a blank one gives ""; with an upload, the PDF or DOCX text is submitted as written |
| `Assessment.AnswerKeepsShape` | main.py:745-746 | Storing the answer and its evaluation under the current question's id keeps the responses and evaluations in question order |
| `Assessment.ClearingKeepsShape` | main.py:750-752 | Moving to the next question and clearing its response keeps the session's shape |
| `Assessment.AnswerSlot` | main.py:745-752 | Writing under the id of question n into a dictionary that holds the first n or n+1 ids leaves exactly the first n+1 |
| `Assessment.Session.constructor` | main.py:653-666 | The initial state: nothing parsed, index 0, no responses and no evaluations, no combined evaluation, the résumé page |
| `Assessment.Session.CurrentQuestion` | main.py:727 | The question shown is the question at the current index |
| `Assessment.Session.NewAssessment` | main.py:674-676 | Only the page changes, to the résumé page |
| `Assessment.Session.ViewCandidates` | main.py:677-679 | Only the page changes, to the browser |
| `Assessment.Session.SubmitResume` | main.py:689-716 | A non-empty résumé text is parsed. When the result is None or a dict, so that `format_resume` returns, it is stored and the résumé is marked parsed. Any other result, or an empty text, leaves every field unchanged |
| `Assessment.Session.TakeAssessment` | main.py:720-722 | Only the page changes, to the assessment page |
| `Assessment.Session.SubmitAnswer` | main.py:736-778 | A blank answer changes nothing and saves nothing. Any other answer is stored and graded; before the last question the index moves on and the next response is cleared; at the last one the combined evaluation is made from the context, the record is saved with its defaults, and the page changes |
| `Assessment.Session.AcceptAnswer` | main.py:737-776 | The state after a non-blank answer, as described for SubmitAnswer; the session's shape is kept |
| `Assessment.Session.StoreAnswer` | main.py:745-746 | `responses[id] = answer` and `evaluations[id] = evaluation`; now both hold exactly the questions up to the current one |
| `Assessment.Session.NextQuestion` | main.py:749-752 | The index moves on by one and the next question's response becomes "" |
| `Assessment.Session.ClearNextResponse` | main.py:752 | `responses[next_id] = ""`, and nothing else changes |
| `Assessment.Session.Conclude` | main.py:755-776 | The combined evaluation is the model's answer on the context, which exists; the returned record is the submitted record with its defaults; the page is the combined-evaluation page |
| `Assessment.Session.StartOver` | main.py:799-807 | Everything is reset except the parsed résumé, and the page goes back to the résumé page |

## Left out

- The Streamlit user interface is not modelled: widgets, `st.rerun`, spinners and messages. Each button press is one method call.
- The language-model calls are function parameters: `grade` for `get_completion_evaluation`, `synthesize` for the model call in `generate_combined_evaluation`, and `parse` for `parse_resume`. The error strings that `grade` and `synthesize` return on a missing API key or a failed call are stored like any other text, as in the program. The error string `parse` can return is not a dict, so the résumé form leaves the state unchanged for it, as `Assessment.Session.SubmitResume` states.
- `loads` stands for `json.loads`, with None for a `JSONDecodeError`.
- PDF and DOCX extraction are not modelled: an upload carries its MIME type and the text its extractor returned.
- `uuid.uuid4()` and `datetime.now(...).isoformat()` are parameters.
- Writing the record to `<candidate_id>.json` is not modelled, and neither are reading the files back, `glob`, and `load_candidate_data`.
- `format_candidate_display_name`, the browser's dropdown and its detail view (main.py:830-840 onwards) are not part of this model.
- The `formatted_resume` session field is written at main.py:715 and never read, so it is left out.
- The question texts are parameters of `ReasoningQuestions`, because they are long prose that no operation inspects.
- `ResumeFormat.Render` reads a missing key, JSON null and "" alike as "" wherever `format_resume` tests the field with `.get` before using it. It does not model these differences:
  - Python renders a null name field such as `institution` as the text "None" in the entry's bold line.
  - `"contact_info": null` makes `contact_info.values()` raise at main.py:413; the model renders no contact section.
  - A skill group with `"items": null` makes the loop at main.py:546 raise; the model renders the group with no items.
  - An entry of a list section that is not a dict, a non-string `graduation_date`, and non-string items given to `', '.join` make `format_resume` raise; the model has no such values.
- Résumé fields are strings or lists of strings. Non-string values that the model might return (numbers, nested objects) are not modelled.
- `Assessment.Session.SubmitResume` tells the dicts that `format_resume` renders from the other results only by their top level (`Assessment.Renders`). A dict with one of the nested shapes above makes Python raise before the state is set, but the model stores it. The parse result is kept as JSON, and the model has no map from JSON to `ResumeFormat.Resume`.
- `Assessment.Session.SubmitResume` submits the corrected résumé text, `Assessment.ResumeInput`: with no upload it uses non-blank pasted text. The program as written drops pasted text and then changes no state (see "## Findings" and `Assessment.ResumeInputAsWritten`).
- `ResumeFormat.ShowsGraduation` lowers ASCII letters only, where Python lowers all of Unicode. The comparison with "present" comes out the same, because no other character lowers to one of its letters.
- `CandidateBrowser.Browser.SortNewestFirst` requires every record to have a string `timestamp`, which is the only kind `save_candidate_to_file` writes (main.py:26). Python raises `KeyError` for a missing timestamp, and `TypeError` when it compares two timestamps of types that cannot be compared. Records whose timestamps are all non-strings of one comparable type, such as numbers, sort in Python but are excluded here, and so is a single record with a null timestamp.
- `Assessment.BuildSynthesisContext` returns None where Python raises (`StopIteration` for an unknown id, `KeyError` for a missing evaluation); the two error kinds are not told apart.
- The `try`/`except Exception` around the reply clean-up and the model call collapse into None.
- The session's questions are fixed when it is created, as `reasoning_questions` is a module constant.

## Findings

| source | as written | input that shows it | evidently intended | confidence | as-written member | corrected member |
|---|---|---|---|---|---|---|
| main.py:689-698 | `resume_text = ""` on line 690 overwrites the pasted text before line 697 tests it, so pasted text is never used | no file uploaded, pasted text "Jane Doe, Analyst" | a non-blank pasted résumé is submitted when no file is uploaded | high, not executed | `Assessment.PastedTextIsLostAsWritten` | `Assessment.ResumeInput` |
