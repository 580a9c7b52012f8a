# Prompt-lab dialogs: prompt-draft composer and version-commit forms

This project models, in Dafny, the client-side state logic of four dialogs of a
prompt-management front end:

- **Edit prompt** (`EditPrompt`, `edit_prompt_dialog.dfy`): a title and
  system-prompt editor with an "assistant" that fills a fixed Portuguese
  template from six structured fields (agent name, role, audience, objective,
  tone, forbidden patterns). A refinement block is appended on re-generation.
  The dialog also has a "start over" reset, the effect that loads the edited
  prompt when the dialog opens, and the version-kind selector with its
  description.
- **Create prompt** (`CreatePrompt`, `create_prompt_dialog.dfy`): the same
  template with an ungated generate button and no refinement.
- **Save version** (`SaveVersion`, `save_version_dialog.dfy`): a bump kind
  (default minor) and notes. Save is gated on `notes.trim()`, hands off the
  current values, then resets the form.
- **Create agent** (`CreateAgent`, `create_agent_dialog.dfy`): name, status
  (default active), prompt and model. Save needs three of them and resets all four.

Shared pieces: `Versioning` (the major/minor/patch kind and the cast of a select
value to it), `JsString` (`String.prototype.trim` over the ECMAScript whitespace
and line-terminator set), and `Wrappers` (an option type for the nullable props).

Each dialog is a `class` with one field per `useState` variable plus `open`.
`open` is the controlled prop that the parent drives from `onOpenChange`, so
"requests close" is `open := false`. Each class has a `State()` snapshot, and
every handler states its whole new state in terms of `old(State())`. The
template and the edit dialog's generation step are pure functions
(`BaseTemplate`, `GeneratedText`, `AfterGenerate`), and the lemmas are stated
about them. The `disabled={...}` expressions are predicates used as method
preconditions. A handler whose control only renders while the dialog is open
requires `open`. The edit dialog's handlers also require a prompt, because it
renders nothing without one.

The template text is modelled character for character, including the
precomposed accented letters. The tone is inserted as the select's stored
value (`"amigavel"`), not its label (`"Amigável"`).

Regeneration rebuilds the draft from the fields every time, so the
"Instruções adicionais" block is never there more than once, however often
generation runs.

## Model

| member | source | states |
|---|---|---|
| `Versioning.ParseKind` | src/components/prompts/EditPromptDialog.tsx:301 | the cast of a select value yields a kind exactly when the value is one of "major", "minor", "patch", and then the kind stores that value |
| `Versioning.ParseKindValue` | src/components/agents/SaveVersionDialog.tsx:71 | storing a kind and casting it back gives the same kind |
| `JsString.TrimStart` | src/components/agents/SaveVersionDialog.tsx:119 | removes exactly the leading whitespace: the result is a suffix, everything dropped is whitespace, and the result starts with a non-whitespace character |
| `JsString.TrimEnd` | src/components/agents/SaveVersionDialog.tsx:119 | removes exactly the trailing whitespace: the result is a prefix, everything dropped is whitespace, and the result ends with a non-whitespace character |
| `JsString.Trim` | src/components/agents/SaveVersionDialog.tsx:119 | `trim()` never lengthens the string, and a non-empty result starts and ends with a non-whitespace character |
| `JsString.TrimEmptyIff` | src/components/agents/SaveVersionDialog.tsx:119 | `s.trim()` is empty iff every character of `s` is whitespace |
| `JsString.TrimIdempotent` | src/components/agents/SaveVersionDialog.tsx:119 | trimming twice is trimming once |
| `EditPrompt.BaseTemplateIsParagraphs` | src/components/prompts/EditPromptDialog.tsx:61-71 | the template is six paragraphs separated by blank lines: persona line, "Público-alvo:", "Objetivo principal:", "Tom de voz:", the forbidden slot, and the closing instruction |
| `Versioning.KindValue` | src/components/prompts/EditPromptDialog.tsx:37 | a kind is stored as exactly one of "major", "minor", "patch", and the default kind (the `useState` initial value here and at src/components/agents/SaveVersionDialog.tsx:27) is the one stored as "minor" |
| `JsString.IsWhitespace` | src/components/agents/SaveVersionDialog.tsx:119 | the characters `trim()` strips: tab, VT, FF, space, NBSP, BOM, the Zs spaces, and the line terminators LF, CR, LS and PS |
| `JsString.TrimDropsOnlyEnds` | src/components/agents/SaveVersionDialog.tsx:119 | `s.trim()` is a slice of `s`: a suffix of `s` after a whitespace prefix, cut before a whitespace suffix |
| `EditPrompt.BaseTemplate` | src/components/prompts/EditPromptDialog.tsx:61-71 | the text always begins with "Você é <name>, <role>." and always ends with "Siga estas diretrizes em todas as suas interações." |
| `EditPrompt.ForbiddenBlockIff` | src/components/prompts/EditPromptDialog.tsx:69 | after the tone line, the text holds "Padrões proibidos:\n" + patterns iff the patterns are non-empty; otherwise the slot is empty and the closing follows directly |
| `EditPrompt.VersionDescription` | src/components/prompts/EditPromptDialog.tsx:105-114 | `getVersionDescription` gives a non-empty description for every kind |
| `EditPrompt.VersionDescriptionInjective` | src/components/prompts/EditPromptDialog.tsx:105-114 | different kinds get different descriptions |
| `EditPrompt.CurrentVersionLabel` | src/components/prompts/EditPromptDialog.tsx:132 | the current-version label: the version when present and non-empty, else "1.0.0" |
| `EditPrompt.GeneratedText` | src/components/prompts/EditPromptDialog.tsx:60-75 | the draft extends the base template; it is the base template plus the refinement block iff the refinement is non-empty and a draft was already generated, and the bare base template otherwise; a first generation never has the block |
| `EditPrompt.AfterGenerate` | src/components/prompts/EditPromptDialog.tsx:60-79 | `handleGeneratePrompt` writes the generated text and sets the flag; every other field is unchanged |
| `EditPrompt.AfterLoad` | src/components/prompts/EditPromptDialog.tsx:51-58 | with a prompt and open: title and prompt text copied in (a missing text becomes ""), description "", kind "minor"; props, flag and the seven assistant fields are kept; otherwise nothing changes |
| `EditPrompt.GenerateButtonEnabled` | src/components/prompts/EditPromptDialog.tsx:246 | the main generate button is enabled iff name and role are non-empty |
| `EditPrompt.RefineButtonEnabled` | src/components/prompts/EditPromptDialog.tsx:261-287 | as written, the refine button is reachable iff there is prompt text (the panel's condition) and refinement text (its `disabled`) |
| `EditPrompt.SaveButtonEnabled` | src/components/prompts/EditPromptDialog.tsx:347 | save is enabled iff title, prompt text and change description are non-empty |
| `EditPrompt.EditPromptDialog.StartOverShown` | src/components/prompts/EditPromptDialog.tsx:251 | "Começar do Zero" is shown iff a draft was generated |
| `EditPrompt.GeneratedEnding` | src/components/prompts/EditPromptDialog.tsx:61-75 | the draft ends with the closing instruction, or with the refinement block when one is appended |
| `EditPrompt.GenerationIgnoresDraft` | src/components/prompts/EditPromptDialog.tsx:60-79 | generation does not read the current prompt text, so a manual edit is overwritten |
| `EditPrompt.RegenerationIdempotent` | src/components/prompts/EditPromptDialog.tsx:60-79 | after generation the flag is set; once a draft exists, generating again with unchanged fields changes nothing |
| `EditPrompt.GenerateTimesFrame` | src/components/prompts/EditPromptDialog.tsx:60-79 | after any number of generations only the draft and the flag have changed, and after at least one the flag is set |
| `EditPrompt.AtMostOneRefinementBlock` | src/components/prompts/EditPromptDialog.tsx:73-78 | after one or more generations the draft is the base template with at most one refinement block, and from the second run on it has one whenever there is refinement text |
| `EditPrompt.RefineOnLoadedPrompt` | src/components/prompts/EditPromptDialog.tsx:261-291 | as written, right after loading an existing prompt the refine button is enabled while generate is not, and pressing it replaces the loaded text with a template starting "Você é , ." and drops the refinement |
| `EditPrompt.IntendedRefinementAppends` | src/components/prompts/EditPromptDialog.tsx:51-58 | with the loader also clearing the flag and refinement offered only on a generated draft, refinement is never offered on freshly loaded text; when offered, pressing it appends exactly the refinement block, and it stays offered |
| `EditPrompt.EditPromptDialog.constructor` | src/components/prompts/EditPromptDialog.tsx:35-58 | mount: every field empty, kind "minor", flag false, then the open-time load |
| `EditPrompt.EditPromptDialog.PropsChanged` | src/components/prompts/EditPromptDialog.tsx:51-58 | with a prompt and open: title and prompt text are copied in (a missing text becomes ""), description cleared, kind "minor"; the assistant fields and the flag are untouched; otherwise only the props change |
| `EditPrompt.EditPromptDialog.SetTitle` | src/components/prompts/EditPromptDialog.tsx:142 | only the title changes |
| `EditPrompt.EditPromptDialog.EditSystemPrompt` | src/components/prompts/EditPromptDialog.tsx:162 | only the prompt text changes |
| `EditPrompt.EditPromptDialog.SetAgentName` | src/components/prompts/EditPromptDialog.tsx:176 | only the agent name changes |
| `EditPrompt.EditPromptDialog.SetAgentRole` | src/components/prompts/EditPromptDialog.tsx:186 | only the agent role changes |
| `EditPrompt.EditPromptDialog.SetTargetAudience` | src/components/prompts/EditPromptDialog.tsx:197 | only the audience changes |
| `EditPrompt.EditPromptDialog.SetMainObjective` | src/components/prompts/EditPromptDialog.tsx:207 | only the objective changes |
| `EditPrompt.EditPromptDialog.SelectTone` | src/components/prompts/EditPromptDialog.tsx:214-226 | the tone becomes one of the seven select values; nothing else changes |
| `EditPrompt.EditPromptDialog.SetForbiddenPatterns` | src/components/prompts/EditPromptDialog.tsx:236 | only the forbidden patterns change |
| `EditPrompt.EditPromptDialog.SetRefinementInstructions` | src/components/prompts/EditPromptDialog.tsx:261-280 | the refinement field, shown only with prompt text, is the only change |
| `EditPrompt.EditPromptDialog.SelectVersionType` | src/components/prompts/EditPromptDialog.tsx:301 | the kind becomes the cast select value; nothing else changes |
| `EditPrompt.EditPromptDialog.SetChangeDescription` | src/components/prompts/EditPromptDialog.tsx:335 | only the change description changes |
| `EditPrompt.EditPromptDialog.GeneratePrompt` | src/components/prompts/EditPromptDialog.tsx:60-79 | enabled by name and role (line 246) or by the refine button (line 287); the draft becomes the base template, plus the refinement block iff there is refinement text and the flag was already set; the flag is set and nothing else changes |
| `EditPrompt.EditPromptDialog.StartOver` | src/components/prompts/EditPromptDialog.tsx:81-91 | the seven assistant fields and the draft become "" and the flag false; title, kind and change description are unchanged |
| `EditPrompt.EditPromptDialog.Save` | src/components/prompts/EditPromptDialog.tsx:93-103 | enabled only with title, prompt text and change description (line 347); hands off the prompt id and the four current values and requests close; no field is cleared |
| `EditPrompt.EditPromptDialog.Cancel` | src/components/prompts/EditPromptDialog.tsx:342 | only requests close |
| `EditPrompt.GenerateTwice` | src/components/prompts/EditPromptDialog.tsx:60-79 | once a draft exists, two more generations write the same text, which extends the base template |
| `CreatePrompt.GeneratedPrompt` | src/components/prompts/CreatePromptDialog.tsx:41-51 | the create dialog's template is character for character the edit dialog's base template |
| `CreatePrompt.NeverRefines` | src/components/prompts/CreatePromptDialog.tsx:40-54 | whatever refinement text there is, the create dialog writes what a first edit-dialog generation writes: never a refinement block |
| `CreatePrompt.GeneratedPromptShape` | src/components/prompts/CreatePromptDialog.tsx:41-51 | persona line first, closing instruction last, forbidden block present iff the patterns are non-empty |
| `CreatePrompt.ForbiddenListed` | src/components/prompts/CreatePromptDialog.tsx:49 | with patterns given, the text starts with the persona line and, right after the tone line, lists "Padrões proibidos:\n" followed by the patterns |
| `CreatePrompt.UngatedEmptyPersona` | src/components/prompts/CreatePromptDialog.tsx:178-185 | generate is not gated: with empty name and role the text starts "Você é , ." |
| `CreatePrompt.ClaraExample` | src/components/prompts/CreatePromptDialog.tsx:41-51 | Clara, "assistente de vendas", forbidden "gírias": the text starts "Você é Clara, assistente de vendas." and lists "Padrões proibidos:\ngírias" |
| `CreatePrompt.ClaraPersona` | src/components/prompts/CreatePromptDialog.tsx:41 | the persona line for Clara, "assistente de vendas" is "Você é Clara, assistente de vendas." |
| `CreatePrompt.ClaraForbidden` | src/components/prompts/CreatePromptDialog.tsx:49 | the forbidden block for "gírias" is "Padrões proibidos:\ngírias" |
| `CreatePrompt.CreatePromptDialog.constructor` | src/components/prompts/CreatePromptDialog.tsx:29-38 | mount: every field empty |
| `CreatePrompt.CreatePromptDialog.Reopen` | src/components/prompts/CreatePromptDialog.tsx:63 | opening again keeps every field |
| `CreatePrompt.CreatePromptDialog.SetTitle` | src/components/prompts/CreatePromptDialog.tsx:79 | only the title changes |
| `CreatePrompt.CreatePromptDialog.EditSystemPrompt` | src/components/prompts/CreatePromptDialog.tsx:99 | only the prompt text changes |
| `CreatePrompt.CreatePromptDialog.SetAgentName` | src/components/prompts/CreatePromptDialog.tsx:113 | only the agent name changes |
| `CreatePrompt.CreatePromptDialog.SetAgentRole` | src/components/prompts/CreatePromptDialog.tsx:123 | only the agent role changes |
| `CreatePrompt.CreatePromptDialog.SetTargetAudience` | src/components/prompts/CreatePromptDialog.tsx:134 | only the audience changes |
| `CreatePrompt.CreatePromptDialog.SetMainObjective` | src/components/prompts/CreatePromptDialog.tsx:144 | only the objective changes |
| `CreatePrompt.CreatePromptDialog.SelectTone` | src/components/prompts/CreatePromptDialog.tsx:151-163 | the tone becomes one of the seven select values; nothing else changes |
| `CreatePrompt.CreatePromptDialog.SetForbiddenPatterns` | src/components/prompts/CreatePromptDialog.tsx:173 | only the forbidden patterns change |
| `CreatePrompt.CreatePromptDialog.GeneratePrompt` | src/components/prompts/CreatePromptDialog.tsx:40-54 | the prompt text becomes the edit dialog's base template of the six fields, overwriting it; nothing else changes |
| `CreatePrompt.CreatePromptDialog.SaveEnabled` | src/components/prompts/CreatePromptDialog.tsx:204 | save is enabled iff title and prompt text are non-empty |
| `CreatePrompt.CreatePromptDialog.Save` | src/components/prompts/CreatePromptDialog.tsx:56-60 | enabled iff title and prompt text are non-empty (line 204); hands off both and requests close; no field is cleared |
| `CreatePrompt.CreatePromptDialog.Cancel` | src/components/prompts/CreatePromptDialog.tsx:201-203 | only requests close |
| `SaveVersion.InfoFor` | src/components/agents/SaveVersionDialog.tsx:37-53 | the `versionInfo` lookup is total over the kinds; each title is the kind's value capitalised; description and example are non-empty |
| `SaveVersion.NotesAccepted` | src/components/agents/SaveVersionDialog.tsx:119 | save is enabled iff `notes.trim()` is non-empty |
| `SaveVersion.NotesAcceptedIff` | src/components/agents/SaveVersionDialog.tsx:119 | save is enabled iff some character of the notes is not whitespace, so whitespace-only notes are refused |
| `SaveVersion.SaveVersionDialog.constructor` | src/components/agents/SaveVersionDialog.tsx:27-28 | mount: kind "minor", notes "" |
| `SaveVersion.SaveVersionDialog.Reopen` | src/components/agents/SaveVersionDialog.tsx:56 | opening again keeps kind and notes |
| `SaveVersion.SaveVersionDialog.SelectVersionType` | src/components/agents/SaveVersionDialog.tsx:69-72 | the kind becomes the cast select value; nothing else changes |
| `SaveVersion.SaveVersionDialog.SetNotes` | src/components/agents/SaveVersionDialog.tsx:108 | only the notes change |
| `SaveVersion.SaveVersionDialog.Save` | src/components/agents/SaveVersionDialog.tsx:30-35 | passes exactly the current kind and the untrimmed notes, which hold a non-whitespace character; afterwards the notes are "", the kind is "minor" and close is requested |
| `SaveVersion.SaveVersionDialog.Cancel` | src/components/agents/SaveVersionDialog.tsx:116 | only requests close; notes and kind are kept |
| `CreateAgent.StatusValue` | src/components/agents/CreateAgentDialog.tsx:27 | the status is only ever stored as "active" or "inactive" |
| `CreateAgent.ParseStatus` | src/components/agents/CreateAgentDialog.tsx:65 | the cast of a select value yields a status exactly when the value is "active" or "inactive" |
| `CreateAgent.CreateAgentDialog.constructor` | src/components/agents/CreateAgentDialog.tsx:26-29 | mount: name "", status active, no prompt, no model |
| `CreateAgent.CreateAgentDialog.Reopen` | src/components/agents/CreateAgentDialog.tsx:43 | opening again keeps every field |
| `CreateAgent.CreateAgentDialog.SetName` | src/components/agents/CreateAgentDialog.tsx:59 | only the name changes |
| `CreateAgent.CreateAgentDialog.SelectStatus` | src/components/agents/CreateAgentDialog.tsx:65 | the status becomes the cast select value; nothing else changes |
| `CreateAgent.CreateAgentDialog.SelectPrompt` | src/components/agents/CreateAgentDialog.tsx:78-88 | the prompt becomes one of the five offered values; nothing else changes |
| `CreateAgent.CreateAgentDialog.SelectModel` | src/components/agents/CreateAgentDialog.tsx:94-107 | the model becomes one of the seven offered values; nothing else changes |
| `CreateAgent.CreateAgentDialog.SaveEnabled` | src/components/agents/CreateAgentDialog.tsx:116 | save is enabled iff name, prompt and model are non-empty |
| `CreateAgent.CreateAgentDialog.Save` | src/components/agents/CreateAgentDialog.tsx:31-40 | enabled iff name, prompt and model are non-empty (line 116); hands off the four current values; afterwards every field is back at its initial value and close is requested |
| `CreateAgent.CreateAgentDialog.Cancel` | src/components/agents/CreateAgentDialog.tsx:111 | only requests close; every field is kept |

## Left out

- Rendering: JSX, dialog, tab, select and scroll primitives, icons and CSS classes have no behaviour beyond display.
- The `console.log` save stubs and the parent's `onSave` callback: there is no persistence. The model returns the payload each save hands off.
- Effect scheduling: React runs the edit dialog's loader after a render in which `prompt` or `open` changed, comparing the prop object by identity. `EditPromptDialog.PropsChanged` runs the loader on every props update it is given.
- `onOpenChange` is modelled as the parent honouring the request (`open := false`). Dismissing a dialog by Escape or by clicking outside is the same transition as `Cancel`.
- Clipboard copy, toasts, the simulated chat reply, the mock data pages, history lists and the styling switch tables are not part of the core modelled here.
- `SaveVersion.Capitalize` upper-cases only an ASCII lower-case first letter, which is all the kind values use.
- `EditPrompt.EditPromptDialog.GeneratePrompt` and `EditPrompt.EditPromptDialog.PropsChanged` keep the refine button's guard and the loader as written (see Findings). The corrected guard and loader are proved about separately and do not replace them in the class.

## Findings

| source | as written | input that shows it | evidently intended | confidence | as-written member | corrected member |
|---|---|---|---|---|---|---|
| src/components/prompts/EditPromptDialog.tsx:261-291 | the refinement panel and its button are shown whenever the prompt text is non-empty, which includes a prompt just loaded for editing | open the dialog on a prompt with text "Seja breve.", type "Mais empatia" as refinement, press "Aplicar Refinamento": the text becomes the template with empty name and role ("Você é , ....") and the refinement is dropped | the loader also clears the generated flag and refinement is offered only on a generated draft, so it is never offered on freshly loaded text and pressing it always appends the refinement block | medium; not executed | `EditPrompt.RefineOnLoadedPrompt` | `EditPrompt.IntendedRefinementAppends` |
