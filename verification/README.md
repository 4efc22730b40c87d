# Assessment generator: a Dafny model

The assessment generator is a two-page web application. On the configuration page, a form collects an API key, a business theme and five technology-stack choices. It validates them and stores them in the browser's local storage. On the editor page, the user starts a generation. The stored config is turned into one templated prompt and sent to a hosted language model. The server action forwards each text delta of the response to a streamable handle and then closes it. The editor appends each delta to the document it shows, and it can save the document to local storage or export it as a markdown file.

This project models that pipeline. The model service is reduced to a finite sequence of deltas.

- `text.dfy` (`Text`): concatenation of fragments (`Concat`), the successive values of the document while fragments arrive (`Snapshots`), and verbatim occurrence (`OccursAt`, `Contains`).
- `prompt.dfy` (`Prompt`): `getPrompt` as a pure function over a `Template` record of constant text pieces.
- `config.dfy` (`Configuration`): the seven-field config record, the form schema as `Validate`, and the form's `Defaults`.
- `storage.dfy` (`Storage`): local storage as a map from keys to entries, and the two keys the pages use.
- `config_page.dfy` (`ConfigPage`): the form's submit path, as a class holding the loading flag, storage, route and logs.
- `relay.dfy` (`Relay`): the request built from a config, the write-once streamable handle as a class, and the producer loop `Generate`.
- `editor.dfy` (`Editor`): the editor page as a class covering load, save, export and generation with its reading loop.
- `pipeline.dfy` (`Pipeline`): both pages driven in sequence, and the two worked scenarios.

The model service appears as a function parameter `respond: Request -> seq<string>`. It gives the deltas returned by one call for a request. Each generation calls it once, so the sampling randomness of a real service does not matter to any property here. The relay's transport to the browser is not modelled. The model assumes the editor reads exactly the sequence of values the producer passed to `update`, in the same order. Whether a write to local storage throws is a boolean parameter: of the submit on the form, and of a save on the editor.

Where the prose description of the system and the code differ, the model follows the code:

- The prompt builder needs no non-empty arguments. It is total, and it splices empty strings too.
- The streamable handle is not an accumulating value. The producer passes each delta to `update` on its own, and the editor does the concatenation. The handle is therefore modelled as the ordered list of its updates plus a closed flag.
- The save that `handleGenerate` starts right after the reset reads the document from before the reset. The model stores that old document. The streamed result is never saved automatically.

How the editor reads and writes local storage:

- JSON is not modelled. A config entry under the config key is the stored config. A missing key or an empty string falls back to the hard-coded config. Any other text under the config key is treated as text that does not parse: parsing throws, and the handler stops before any effect, without an alert or navigation.
- The editor's save has no guard around its write. If the write throws, nothing is stored and the saving flag stays raised. In `handleGenerate` that save is not awaited, so generation goes on regardless.

## Model

| member | source | states |
|---|---|---|
| Text.ConcatAppend | app/editor/page.tsx:83-85 | The document built from two runs of deltas is the document of the first run followed by that of the second. |
| Text.ConcatStep | app/editor/page.tsx:84 | Reading one more delta extends the document by exactly that delta at its end. |
| Text.ConcatTiles | app/editor/page.tsx:83-85 | Every delta appears verbatim in the final document, right after the text of the deltas before it, so none is dropped, reordered or merged. |
| Text.ConcatPrefix | app/editor/page.tsx:84 | The document after fewer deltas is a prefix of the document after more. |
| Text.ConcatLength | app/editor/page.tsx:83-85 | The document's length is the sum of the deltas' lengths. |
| Text.Snapshots | app/editor/page.tsx:79-85 | The successive values of the document state during a generation start with "" and end with the concatenation of all deltas, one more value per delta. |
| Text.SnapshotsGrow | app/editor/page.tsx:84 | Each value of the document is the previous one plus the next delta, and every value is a prefix of every later one. |
| Prompt.Render | app/prompt.ts:9-77 | The template literal: the template's pieces joined with the six arguments spliced in text order. Its layout is stated by the three lemmas below and `Prompt.RenderLayout`. |
| Prompt.GetPrompt | app/prompt.ts:1-78 | getPrompt renders the assessment template with the arguments in the source's parameter order, theme first. Its properties are `Prompt.PromptLayout`, `Prompt.PromptContainsArguments` and `Prompt.PromptLength`. |
| Prompt.RenderArguments | app/prompt.ts:32-36 | Each of the six arguments sits verbatim at its computed start in a rendered template, and the closing text follows the theme up to the end. |
| Prompt.RenderLeadingText | app/prompt.ts:9-32 | The template text before the frontend, between frontend and backend, and between backend and database sits verbatim at its computed position. |
| Prompt.RenderTrailingText | app/prompt.ts:33-76 | The template text after the database, after the UI framework, and between the form library and the theme sits verbatim at its computed position. |
| Prompt.RenderLayout | app/prompt.ts:9-77 | A rendered template is tiled exactly by its constant pieces and the six arguments. Each argument sits verbatim at its computed start, with only template text before, between and after. |
| Prompt.PromptLayout | app/prompt.ts:32-36 | In the assessment prompt the arguments occur verbatim at strictly increasing positions, in the order frontend, backend, database, UI framework, form library, theme, each separated from the next by template text. |
| Prompt.PromptContainsArguments | app/prompt.ts:76 | The prompt contains each of the six arguments, the theme included, as a verbatim substring, whatever their contents, including empty strings. |
| Prompt.PromptLength | app/prompt.ts:1-77 | The prompt is exactly the template's length plus the six arguments' lengths: nothing is escaped, trimmed or dropped. |
| Configuration.Valid | app/page.tsx:23-31 | The schema's acceptance condition: every one of the seven fields has at least one character. |
| Configuration.ErrorsFor | app/page.tsx:24-30 | Checking a list of fields gives one required-field error for each empty field in the list and nothing else. When no field is listed twice, no field gets two errors. |
| Configuration.Validate | app/page.tsx:23-31 | The schema passes a config exactly when all seven fields are non-empty. Each empty field, and only an empty field, gets its own required-field message. No field gets more than one error. |
| Configuration.DefaultsRejected | app/page.tsx:57-65 | `Defaults` holds the form's default values: empty API key and theme, and the preset stack. The default values fail validation, and exactly the API key and the theme are reported missing. |
| ConfigPage.ConfigForm.constructor | app/page.tsx:51-53 | A fresh form page is not loading, shows no errors, has logged nothing, and sits at route "/" over the given storage. |
| ConfigPage.ConfigForm.HandleSubmit | app/page.tsx:113 | The schema's errors replace those shown. An invalid config changes nothing else. A valid one runs the submit handler. |
| ConfigPage.ConfigForm.OnSubmit | app/page.tsx:68-78 | The loading flag is raised and then lowered on both paths. On success the config is stored under "assessment-config" and the route becomes "/editor". If storing throws, the error is logged, nothing is stored and the route stays. |
| Relay.RequestFor | app/action.ts:10-35 | The request carries the config's API key, the model "gemini-1.5-flash" and temperature 1. Each config field sits verbatim at the prompt position of the parameter of the same name, so no field is swapped. |
| Relay.StreamableValue.constructor | app/action.ts:19 | A new handle has initial value "", no updates, and is open. |
| Relay.StreamableValue.Update | app/action.ts:38 | An update is allowed only while the handle is open, and it appends the delta to the handle's updates. |
| Relay.StreamableValue.Done | app/action.ts:41 | Closing is allowed only while the handle is open, and it keeps the updates. Nothing can be written after it, and it cannot happen twice. |
| Relay.Generate | app/action.ts:9-45 | A fresh handle starting at "" receives exactly the response's deltas, each once and in order, and is then closed. The request sent is the config's request. |
| Text.Concat | app/editor/page.tsx:84 | The document after a run of deltas, each appended to the text before it. Its properties are the `Text.Concat*` lemmas above. |
| Editor.StoredConfig | app/editor/page.tsx:62-73 | The config the handler reads: the stored config, the fallback when the key is missing or holds "", and no config when other text does not parse. Only a stored config can carry an API key. |
| Editor.StoredContent | app/editor/page.tsx:38 | The stored document, "" when missing. A non-empty result is exactly the text stored under "assessment-content". |
| Editor.MissingConfigHasNoKey | app/editor/page.tsx:62-73 | With no stored config, or an empty string stored, the fallback config is used. It has an empty API key and is not a valid config. |
| Editor.StoredTextConfigUnparsable | app/editor/page.tsx:62-63 | Non-empty text under the config key that is not a config does not parse, so there is no config to use. |
| Editor.StoredValidConfigHasKey | app/editor/page.tsx:74 | A stored config that passed the schema is used as it is and has an API key, so the guard lets it through. |
| Editor.EditorPage.constructor | app/editor/page.tsx:33-35 | A fresh editor page has the empty document, is not saving, sits at "/editor" over the given storage, and has recorded no document value, request or alert. |
| Editor.EditorPage.Load | app/editor/page.tsx:37-42 | A non-empty stored document becomes the document. A missing or empty one leaves the document unchanged. |
| Editor.EditorPage.Persist | app/editor/page.tsx:44-49 | The saving flag is raised. If the write succeeds, the text is stored under "assessment-content", no other key changes, and the flag is lowered again. If the write throws, nothing is stored and the flag stays raised. |
| Editor.EditorPage.Save | app/editor/page.tsx:44-49 | After a successful save the stored document equals the current document. A throwing write stores nothing and leaves the flag raised. The document is unchanged either way. |
| Editor.EditorPage.Export | app/editor/page.tsx:51-59 | The exported file is named "assessment.md", has type "text/markdown", and its content is exactly the current document. |
| Editor.EditorPage.Accumulate | app/editor/page.tsx:83-85 | Starting from the reset document, the document ends as the concatenation of the deltas in delivery order. Every successive value of the document state is recorded. |
| Editor.EditorPage.RunGeneration | app/editor/page.tsx:78-85 | The pre-reset document is saved, or the save throws and leaves the flag raised, and generation goes on either way. One request is sent for the config, the document takes the value "", and it ends as the concatenation of that request's deltas. |
| Editor.EditorPage.HandleGenerate | app/editor/page.tsx:61-86 | Unparsable text under the config key stops the handler with no effect. With no API key, an alert is shown, the route becomes "/", and there is no request and no change to the document, storage or saving flag. Otherwise generation runs as `RunGeneration` states. |
| Pipeline.SubmitThenGenerate | app/editor/page.tsx:61-86 | On a fresh browser, a valid config that is stored successfully yields a document equal to the concatenation of the deltas for its request, whether or not the editor's save throws, and the export holds that document. Any other submit leaves the document "". |
| Pipeline.FragmentScenario | app/editor/page.tsx:84 | The deltas "Hel", "lo, ", "world" give the document "Hello, world", through the successive document values "", "Hel", "Hello, ". |
| Pipeline.PromptScenario | app/prompt.ts:32-36 | The prompt for theme "Inventory Tracker" and stack React, Go, Postgres, Bootstrap, Formik contains each of these verbatim. |

## Left out

- Presentation is not modelled: the JSX, the animations, the markdown and syntax-highlighting rendering, and the code-block matcher used for rendering.
- The model service and its SDK calls are replaced by the `respond` parameter: provider creation, `streamText`, and how `createStreamableValue` and `readStreamableValue` move values between server and browser.
- Authentication and network failures of the model service are not modelled. The code does not handle them. The model also assumes every response runs to completion, although the editor route's `maxDuration = 30` (app/editor/page.tsx:16) can cut off the server action after 30 seconds.
- The fire-and-forget producer task and its interleaving with the editor's reading loop are not modelled. The producer runs to completion first, then the editor reads its updates.
- JSON encoding and decoding are not modelled. A config is stored as a record, and any non-empty text under the config key counts as not parsing.
- Editor.EditorPage.HandleGenerate: text under the config key that is valid JSON but not a config record is not modelled. For example, `{}` parses in the source and is then refused for its missing API key. The model treats all such text as unparsable.
- Blob, object-URL and anchor-click download mechanics are not modelled. `Export` returns the file's name, type and content.
- Painting is not modelled. React may batch several document updates into one paint. `documentLog` records every value the document state takes, not the frames painted.
- The router and `alert` are reduced to a `route` field and an `alerts` log, and `console.error` to an `errorLog`.
- Editor.EditorPage.Persist: the saving flag's one-second delay is not modelled. The flag is lowered at once, and `savingLog` records that it was raised and lowered.
- The two long prose blocks of the prompt template are abbreviated to "[...]" in `Prompt.Assessment`. The lemmas hold for every template, so this changes no proved property, only the exact prompt text.
