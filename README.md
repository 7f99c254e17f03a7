# CV Generator: document, wizard and preview, in Dafny

This project models the logic core of a browser-based résumé editor (`CVGenerator/src/main.jsx`).
The editor keeps one **document** in memory:
- a personal record of five strings;
- a list of experience entries and a list of education entries, each entry four strings;
- a list of skills and a list of achievements.

The editor walks the user through a four-step **wizard**. Two **staging buffers** hold a skill or an achievement before it is committed. A **preview** projects the document onto a page of conditionally included sections.

Modules:

- `Text` (`text.dfy`): JavaScript's `String.prototype.trim`. Whitespace is the exact set of WhiteSpace and LineTerminator code points of ECMAScript (sections 12.2 and 12.3 of ECMAScript 2024). The model proves the following about the result:
  - it is a contiguous slice of the input;
  - everything cut off is whitespace;
  - it neither starts nor ends with whitespace;
  - it is empty exactly when the input is blank;
  - trimming a trimmed string changes nothing.
- `Lists` (`lists.dfy`): the two index-based idioms used on the lists, `map((x, i) => i === index ? … : x)` and `filter((_, i) => i !== index)`. The filter is defined as the source computes it, position by position. It is proved equal to `xs[..i] + xs[i+1..]` for an index in range, and to `xs` otherwise.
- `Resume` (`resume.dfy`): the `Document` datatype, the initial document and every copy-on-write transform handed to `setCvData`.
  - Each transform states exactly what changes and what stays the same.
  - Each transform preserves the invariant `Valid`: experience and education hold at least one entry, and every skill and achievement is a non-empty trimmed string.
- `Preview` (`preview.dfy`): `CVPreview` as a pure function from a document to a list of `Section` values:
  - the header (name with its placeholder, contact lines);
  - summary, experience cards, education cards, skill tags and achievement items.

  Lemmas state the page order, and when each section and each entry is included.
- `Wizard` (`wizard.dfy`): the four steps and the clamped Previous/Next moves.
- `Editor` (`editor.dfy`): class `CvEditor` holds the four pieces of component state (`cvData`, `currentStep`, `newSkill`, `newAchievement`) as fields. It has one method per event handler. Every method keeps `Valid()`, which is the wizard step range plus the document invariant. Because the constructor establishes `Valid()`, the invariant holds in every state the editor can reach.

## Model

| member | source | states |
|---|---|---|
| `Text.LeadingWhitespace` | CVGenerator/src/main.jsx:92 | the whitespace prefix that `trim` removes: every character before the count is whitespace, and the next one is not |
| `Text.TrailingWhitespace` | CVGenerator/src/main.jsx:92 | the whitespace suffix that `trim` removes: every character after the cut is whitespace, and the one before it is not |
| `Text.Trim` | CVGenerator/src/main.jsx:92 | `trim()` yields a contiguous slice of its input with only whitespace cut on either side; the result is trimmed, and it is empty iff the input is blank |
| `Text.TrimOfTrimmed` | CVGenerator/src/main.jsx:95 | a string that is already trimmed is its own trim, so trim is idempotent |
| `Text.TrimmedIsListItem` | CVGenerator/src/main.jsx:92-95 | what the skill gate lets through, a non-empty `trim(buffer)`, is a non-empty trimmed string whose trim is itself |
| `Text.TrimExamples` | CVGenerator/src/main.jsx:92-97 | `"Go "` trims to `"Go"`; `"  "` and `""` trim to the empty string, which the gate refuses |
| `Lists.UpdateAt` | CVGenerator/src/main.jsx:56-58 | the index map keeps the length and replaces only the entry at the index; for an index out of range it leaves the list as it was |
| `Lists.WithoutIndex` | CVGenerator/src/main.jsx:114 | the index filter equals `xs[..i] + xs[i+1..]` for an index in range, and `xs` otherwise |
| `Lists.WithoutIndexSubset` | CVGenerator/src/main.jsx:121 | filtering an index out of a list only keeps elements that were already in it |
| `Resume.WithPersonal` | CVGenerator/src/main.jsx:49 | `{ ...personal, [f]: v }` sets field f to v and leaves the other four fields alone |
| `Resume.WithExperience` | CVGenerator/src/main.jsx:57 | `{ ...exp, [f]: v }` sets field f to v and leaves the other three fields alone |
| `Resume.WithEducation` | CVGenerator/src/main.jsx:76 | `{ ...edu, [f]: v }` sets field f to v and leaves the other three fields alone |
| `Resume.Initial` | CVGenerator/src/main.jsx:20-32 | the initial document is valid, with all personal fields blank, exactly one blank experience entry, exactly one blank education entry, and no skills or achievements |
| `Resume.UpdatePersonal` | CVGenerator/src/main.jsx:46-51 | exactly personal field f becomes v; the other personal fields and all four lists are unchanged; validity is preserved |
| `Resume.UpdateExperience` | CVGenerator/src/main.jsx:53-60 | the experience length is kept; only field f of entry `index` changes; every other entry and every other part of the document is unchanged; an out-of-range index is a no-op; validity is preserved |
| `Resume.AddExperience` | CVGenerator/src/main.jsx:62-70 | the experience list grows by exactly one; the old entries are kept as a prefix; the new last entry is blank in every field; the rest is unchanged; validity is preserved |
| `Resume.UpdateEducation` | CVGenerator/src/main.jsx:72-79 | the same as UpdateExperience, for the education list |
| `Resume.AddEducation` | CVGenerator/src/main.jsx:81-89 | the same as AddExperience, for the education list |
| `Resume.AppendSkill` | CVGenerator/src/main.jsx:93-96 | the skill list grows by one, with the old skills as a prefix and the item last; nothing else changes; a valid document stays valid when the item is a non-empty trimmed string |
| `Resume.AppendAchievement` | CVGenerator/src/main.jsx:103-106 | the same as AppendSkill, for achievements |
| `Resume.RemoveSkill` | CVGenerator/src/main.jsx:111-116 | an in-range index removes exactly that skill (length minus one, order kept); an out-of-range index leaves the document unchanged; validity is preserved |
| `Resume.RemoveAchievement` | CVGenerator/src/main.jsx:118-123 | the same as RemoveSkill, for achievements |
| `Preview.HeaderName` | CVGenerator/src/main.jsx:427 | the header shows `fullName` when it is non-empty, else `"Your Name"`; the name is never empty |
| `Preview.Contacts` | CVGenerator/src/main.jsx:429-447 | email, phone and location each appear, with their icon, iff non-empty; every line is one of those three fields with its own icon; no contact line is empty; the lines come in the order mail, phone, location |
| `Preview.ExperienceCardOf` | CVGenerator/src/main.jsx:473-493 | a card shows the entry's position, company and duration, and its description line iff the description is non-empty |
| `Preview.EducationCardOf` | CVGenerator/src/main.jsx:508-526 | a card shows the entry's degree and institution, its year line iff the year is non-empty, and its GPA line, as "GPA: " followed by the GPA, iff the GPA is non-empty |
| `Preview.Cards` | CVGenerator/src/main.jsx:470-495 | there are never more cards than entries; which cards appear and where is stated by CardsEmpty, CardsFromShown and CardAt |
| `Preview.CardsEmpty` | CVGenerator/src/main.jsx:465-472 | the cards are empty iff no entry passes the test, which is the condition `some` checks |
| `Preview.CardsFromShown` | CVGenerator/src/main.jsx:505-507 | every rendered card is the card of an entry that passes the test |
| `Preview.CardsAppend` | CVGenerator/src/main.jsx:470-472 | the cards of a concatenated list are the cards of the first part followed by the cards of the second |
| `Preview.CardAt` | CVGenerator/src/main.jsx:505-507 | every entry that passes the test is rendered, at the position given by the number of shown entries before it; so the cards list exactly the shown entries, in order |
| `Preview.CardsSkipHidden` | CVGenerator/src/main.jsx:472 | an entry that fails the test contributes no card |
| `Preview.Layout` | CVGenerator/src/main.jsx:424-569 | the page starts with the header, followed by each present section |
| `Preview.LayoutInOrder` | CVGenerator/src/main.jsx:424-569 | whatever the contents, the sections come in the fixed order, each at most once, with the header only first |
| `Preview.LayoutMembers` | CVGenerator/src/main.jsx:424-569 | a section is on the page iff it is the header or a section whose content is present |
| `Preview.Render` | CVGenerator/src/main.jsx:419-572 | the page always starts with the header, built from the name (with its fallback) and the contact row |
| `Preview.RenderInOrder` | CVGenerator/src/main.jsx:424-569 | the page is in the fixed order header, summary, experience, education, skills, achievements, and each section appears at most once |
| `Preview.RenderMembers` | CVGenerator/src/main.jsx:419-572 | a section is on the page iff it is the header, or one of the five optional sections whose condition holds |
| `Preview.RenderSummary` | CVGenerator/src/main.jsx:453-462 | the summary section is present iff the summary is non-empty, and it shows that summary |
| `Preview.RenderExperience` | CVGenerator/src/main.jsx:465-497 | the experience section is present iff some entry has a company or a position; when present it is non-empty and holds exactly the cards of those entries |
| `Preview.RenderEducation` | CVGenerator/src/main.jsx:500-530 | the education section is present iff some entry has an institution or a degree; when present it is non-empty and holds exactly the cards of those entries |
| `Preview.RenderLists` | CVGenerator/src/main.jsx:533-569 | the skills and achievements sections are present iff their lists are non-empty, and they show every item in list order |
| `Preview.AddExperienceKeepsPreview` | CVGenerator/src/main.jsx:62-70 | adding a blank experience entry leaves the rendered page unchanged |
| `Preview.AddEducationKeepsPreview` | CVGenerator/src/main.jsx:81-89 | adding a blank education entry leaves the rendered page unchanged |
| `Preview.InitialPreview` | CVGenerator/src/main.jsx:20-32 | the initial document renders as the `"Your Name"` header alone |
| `Preview.SingleEntryPreview` | CVGenerator/src/main.jsx:465-472 | among blank experience entries, only the one with a position renders, and it renders alone |
| `Wizard.Previous` | CVGenerator/src/main.jsx:651-652 | `max(0, s-1)` keeps a valid step valid; it is a no-op exactly at step 0 (where the button is disabled); otherwise it moves back one |
| `Wizard.Next` | CVGenerator/src/main.jsx:658-661 | `min(3, s+1)` keeps a valid step valid; it is a no-op exactly at the last step (where the button is disabled); otherwise it moves forward one |
| `Wizard.PreviousNextRoundTrip` | CVGenerator/src/main.jsx:651-659 | Next undoes Previous except at the first step, and Previous undoes Next except at the last |
| `Editor.CvEditor.constructor` | CVGenerator/src/main.jsx:19-35 | the editor starts valid, at step 0, with the initial document and empty buffers |
| `Editor.CvEditor.UpdatePersonal` | CVGenerator/src/main.jsx:46-51 | the document becomes `Resume.UpdatePersonal` of the old one; step and buffers are unchanged; validity is kept |
| `Editor.CvEditor.UpdateExperience` | CVGenerator/src/main.jsx:53-60 | the document becomes `Resume.UpdateExperience` of the old one; nothing else changes |
| `Editor.CvEditor.AddExperience` | CVGenerator/src/main.jsx:62-70 | the document becomes `Resume.AddExperience` of the old one; nothing else changes |
| `Editor.CvEditor.UpdateEducation` | CVGenerator/src/main.jsx:72-79 | the document becomes `Resume.UpdateEducation` of the old one; nothing else changes |
| `Editor.CvEditor.AddEducation` | CVGenerator/src/main.jsx:81-89 | the document becomes `Resume.AddEducation` of the old one; nothing else changes |
| `Editor.CvEditor.SetNewSkill` | CVGenerator/src/main.jsx:356 | typing sets the skill buffer and nothing else |
| `Editor.CvEditor.SetNewAchievement` | CVGenerator/src/main.jsx:389 | typing sets the achievement buffer and nothing else |
| `Editor.CvEditor.AddSkill` | CVGenerator/src/main.jsx:91-99 | if the buffer trims to a non-empty string, exactly that trimmed string is appended and the buffer is cleared; otherwise the document and the buffer are unchanged; validity is kept |
| `Editor.CvEditor.AddAchievement` | CVGenerator/src/main.jsx:101-109 | the same as AddSkill, for the achievement buffer and list |
| `Editor.CvEditor.RemoveSkill` | CVGenerator/src/main.jsx:111-116 | the document becomes `Resume.RemoveSkill` of the old one; nothing else changes |
| `Editor.CvEditor.RemoveAchievement` | CVGenerator/src/main.jsx:118-123 | the document becomes `Resume.RemoveAchievement` of the old one; nothing else changes |
| `Editor.CvEditor.GoToStep` | CVGenerator/src/main.jsx:624-629 | a step button, whose index always comes from the steps list, jumps to that step whatever the current one is |
| `Editor.CvEditor.PreviousStep` | CVGenerator/src/main.jsx:651 | the step becomes `Wizard.Previous` of the old step and stays in range |
| `Editor.CvEditor.NextStep` | CVGenerator/src/main.jsx:658-659 | the step becomes `Wizard.Next` of the old step and stays in range |

## Left out

- `downloadPDF` (opening a window, writing the serialised preview markup and a style sheet into it, the 250 ms delay before printing): browser I/O and timing, with nothing to state about the document.
- The edit/preview view-mode toggle: a two-valued display flag with no logic.
- All markup, CSS classes, inline styles and icons. Icons survive only as the `ContactIcon` tag of a contact line. The card datatypes keep the text each card shows and which optional lines it shows.
- React mechanics (`useState` batching, functional-updater scheduling, `StrictMode` double invocation, mounting): the handlers are modelled as running one after another, each on the state the previous one left.
- Computed keys `[field]: value` are modelled as closed enumerations of the field names the form passes. No other key reaches the update functions.
- Indices are mathematical integers. The form only passes integer positions of the rendered lists, so the non-integer JavaScript numbers that `===` would never match are not modelled.
- Re-rendering the same document twice gives the same page because `Preview.Render` is a function; no separate lemma states this.
- `Editor.CvEditor.GoToStep` requires a valid step, because its only callers are the four step buttons, which pass the indices 0 to 3.
- `updateExperience` and `updateEducation` treat an out-of-range index as a no-op, because the index `map` never matches it. The form only ever passes the positions of rendered entries.
