# AI Amigo persona chat: a Dafny model of its client-side logic

AI Amigo lets a user chat with one of five AI personas (Brother, Friend,
Girlfriend, Mother, Father), tune each persona's name, avatar and conversation
style, and generate images. This project models the logic that sits in its
components and flows, and proves what each of them promises:

- the chat composer (`ChatInputBox`): a text buffer capped at 500 UTF-16 code
  units, a send guard on non-blank text while no reply is pending, Enter versus
  Shift+Enter, and the send button's enablement;
- the five-way image fan-out (`ImageFanOut`): five indexed prompts on one source
  image, collected in order, failing as a whole when any result lacks a URL;
- the persona chat flow (`PersonaChat`): the role and language enums and their
  validation, the two prompt templates as ordered lists of sections, and the
  dispatch of `Girlfriend` to its own template;
- the persona registry (`Personas`) and its invariants;
- the persona selector (`PersonaSelector`): the current route segment and the
  highlighted, linked, labelled buttons;
- the message bubble (`ChatMessage`): greeting, image or text, the download
  file name, avatar fallbacks and which gestures ask for a deletion;
- the persona and style settings pages (`PersonaSettings`,
  `PersonaStyleSettings`): loading with fallbacks, single-entry edits, saving;
- the image generation page (`ImageGeneration`): its busy flag and result.

Two helper modules hold the shared vocabulary: `Wrappers` (optional values and
results) and `Js` (what JavaScript's `trim()` strips, what `.length` counts,
when an optional string is truthy).

Components whose state React updates in place (`ChatInput`, the two settings
pages, the image generation page) are classes whose methods modify their
fields; the flows, the registry, the selector and the message bubble are pure
functions. Calls into code that is not part of this model are parameters:
the image model (`generate`), the chat model (`model`), the image flow of the
generation page (`generate`), `localStorage` reads (optional strings),
`JSON.parse` (a function that gives no value when it throws) and the
`FileReader` result (a data URL string).

The chat flow's input schema has no image field, and the five-way fan-out
fails as a whole as soon as any one result lacks an image URL.

## Model

| member | source | states |
|---|---|---|
| `Js.Trim` | src/components/chat/chat-input.tsx:19 | `trim()` is empty exactly when the text is all ECMAScript whitespace or line terminators, and otherwise starts and ends with a non-whitespace character |
| `Js.Utf16Length` | src/components/chat/chat-input.tsx:32 | `.length` counts UTF-16 code units: between one and two per character, exactly one per character iff none lies outside the Basic Multilingual Plane, exactly two iff all do |
| `Js.Utf16LengthOne` | src/components/chat/chat-input.tsx:32 | one character counts 2 if its code point is at least U+10000, else 1 |
| `Js.Utf16LengthAppend` | src/components/chat/chat-input.tsx:32 | the count of a concatenation is the sum of the counts, so with `Utf16LengthOne` it fixes the value of every string |
| `ChatInputBox.CanSubmit` | src/components/chat/chat-input.tsx:19 | the send guard holds iff no reply is pending and the text has a non-whitespace character |
| `ChatInputBox.SubmitsOnKeyDown` | src/components/chat/chat-input.tsx:51-56 | only Enter submits, and Enter submits iff Shift is not held |
| `ChatInputBox.ChatInput.constructor` | src/components/chat/chat-input.tsx:14 | the buffer starts empty, within the cap |
| `ChatInputBox.ChatInput.HandleTextChange` | src/components/chat/chat-input.tsx:31-57 | while no reply is pending, an edit of at most 500 UTF-16 units replaces the buffer; a longer edit, or any edit while the textarea is disabled for a pending reply, leaves it exactly as it was; the buffer never exceeds 500 |
| `ChatInputBox.ChatInput.HandleSubmit` | src/components/chat/chat-input.tsx:17-23 | when the guard holds, the untrimmed buffer is sent and the buffer becomes empty; otherwise nothing is sent and the buffer is unchanged |
| `ChatInputBox.ChatInput.HandleKeyDown` | src/components/chat/chat-input.tsx:51-57 | Enter without Shift on the enabled textarea prevents the newline and submits as `HandleSubmit` does; any other key, or any key while the textarea is disabled for a pending reply, sends nothing and keeps the buffer |
| `ChatInputBox.ChatInput.SubmitDisabled` | src/components/chat/chat-input.tsx:63 | the send button is disabled iff a reply is pending or the text is blank, so an enabled button always sends |
| `ChatInputBox.ChatInput.ShowsSendIcon` | src/components/chat/chat-input.tsx:64 | the send icon shows iff the text is not blank |
| `ImageFanOut.FullPrompt` | src/ai/flows/generate-image-from-image.ts:44-46 | request i's text carries the user prompt right after the fixed lead and ends with "image i+1 of 5." |
| `ImageFanOut.FullPromptInjective` | src/ai/flows/generate-image-from-image.ts:44-46 | two request texts are equal only for the same prompt and index |
| `ImageFanOut.BuildRequests` | src/ai/flows/generate-image-from-image.ts:41-55 | exactly five requests, each on the same model, modalities and source image, request i with text i |
| `ImageFanOut.RequestsDistinct` | src/ai/flows/generate-image-from-image.ts:41-46 | the five requests are pairwise different |
| `ImageFanOut.CollectUrls` | src/ai/flows/generate-image-from-image.ts:59-64 | succeeds iff every result has a truthy `media.url`, then with one URL per result in order; otherwise fails with the generation error and no partial list |
| `ImageFanOut.GenerateImageFromImage` | src/ai/flows/generate-image-from-image.ts:40-69 | succeeds iff all five replies carry a URL, then with five URLs where URL i comes from request i; fails as a whole when any call rejects or any URL is missing |
| `PersonaChat.ParseRole` | src/ai/flows/persona-chat.ts:16-18 | a role string is accepted iff it names one of the five roles, and it maps to that role |
| `PersonaChat.RoleNameRoundTrip` | src/ai/flows/persona-chat.ts:16-18 | every role's name validates back to that role |
| `PersonaChat.ParseLanguage` | src/ai/flows/persona-chat.ts:21 | an absent language is English; a present one is accepted iff it names English, Hindi or Hinglish |
| `PersonaChat.ParseInput` | src/ai/flows/persona-chat.ts:15-23 | the input validates iff role and language do; the role and language are the parsed ones, and message, history and style pass through unchanged |
| `PersonaChat.SelectPrompt` | src/ai/flows/persona-chat.ts:95-100 | the girlfriend prompt is chosen iff the role is Girlfriend |
| `PersonaChat.Render` | src/ai/flows/persona-chat.ts:39-84 | both templates run: persona instructions (the girlfriend paragraph iff the girlfriend template, else the generic one with the input's role and language), the style line iff the style is truthy, chat history (empty when absent), user message, "Response:" |
| `PersonaChat.StyleLineIffTruthy` | src/ai/flows/persona-chat.ts:44-46 | a style line appears iff `conversationStyle` is a non-empty string, and it carries that string |
| `PersonaChat.GenericPromptDeterminesRoleAndLanguage` | src/ai/flows/persona-chat.ts:39-41 | the generic template interpolates the role and the language |
| `PersonaChat.GirlfriendPromptIgnoresLanguage` | src/ai/flows/persona-chat.ts:61-72 | the girlfriend template's text does not depend on the language |
| `PersonaChat.PersonaChatFlow` | src/ai/flows/persona-chat.ts:94-101 | the flow succeeds iff the model answers the prompt the role selects, and returns exactly that answer, with no default |
| `Personas.PersonaKeys` | src/lib/personas.ts:55 | `personaKeys` lists the record's keys in declaration order |
| `Personas.Values` | src/lib/personas.ts:12-53 | `Object.values` lists the entries in declaration order |
| `Personas.Lookup` | src/lib/personas.ts:12-53 | a key finds an entry iff it is one of `personaKeys`; the entry found is the one declared under that key, and it carries that key |
| `Personas.PromptRoles` | src/lib/personas.ts:7 | the entries' roles in record order |
| `Personas.RegistryKeys` | src/lib/personas.ts:12-55 | the registry has exactly the keys brother, friend, girlfriend, mother, father, each once, and `personaKeys` is its key set |
| `Personas.Record` | src/lib/personas.ts:12-53 | the record has exactly the keys of `personaKeys`, each declared entry sits under its own key, and every entry's `key` field equals the key it sits under |
| `Personas.PromptRolesAreABijection` | src/lib/personas.ts:17-49 | the five roles are pairwise distinct and cover the role enum |
| `Personas.PromptRolesAcceptedByChatFlow` | src/lib/personas.ts:7 | every registry role is accepted by the chat flow's role enum |
| `Personas.InitialMessagesNonEmpty` | src/lib/personas.ts:18-50 | every greeting is non-empty |
| `PersonaSelector.CurrentRole` | src/components/chat/persona-selector.tsx:11 | the result is the longest '/'-free suffix of the path: '' for a path ending in '/' |
| `PersonaSelector.Buttons` | src/components/chat/persona-selector.tsx:15-24 | one button per registry entry, linking to "/chat/" + key, labelled with the role, highlighted iff its key is the current segment |
| `PersonaSelector.AtMostOneHighlighted` | src/components/chat/persona-selector.tsx:18 | at most one button is highlighted |
| `PersonaSelector.CurrentRoleOfSuffix` | src/components/chat/persona-selector.tsx:11 | a path ending in "/" + a '/'-free key selects that key |
| `Personas.KeysDistinct` | src/lib/personas.ts:12-47 | the five record keys are pairwise distinct and none contains '/' |
| `Personas.EntryKeysDistinctAndSlashFree` | src/lib/personas.ts:14-46 | the entries' keys are pairwise distinct and contain no '/' |
| `PersonaSelector.LinkHighlightsOwnButton` | src/components/chat/persona-selector.tsx:18-22 | on the route a button links to, exactly that button is highlighted |
| `ChatMessage.Classify` | src/components/chat/chat-message.tsx:23-37 | greeting iff the id is 'initial'; otherwise image iff `imageUrl` is truthy; otherwise text |
| `ChatMessage.FirstChar` | src/components/chat/chat-message.tsx:28 | `charAt(0)` is the first character, empty only for an empty string |
| `ChatMessage.UserInitial` | src/components/chat/chat-message.tsx:82 | the user's fallback is the first character of a non-empty name, else 'Y' |
| `ChatMessage.DownloadName` | src/components/chat/chat-message.tsx:67 | the download name is "ai-amigo-" + id + ".png" |
| `ChatMessage.DownloadNameInjective` | src/components/chat/chat-message.tsx:67 | different ids download under different names |
| `ChatMessage.DragConstraints` | src/components/chat/chat-message.tsx:108 | user bubbles drag within [-80, 0], AI bubbles within [0, 80] |
| `ChatMessage.Render` | src/components/chat/chat-message.tsx:20-156 | the greeting shows its text under the persona's initial; an image bubble shows the URL, the download name and a caption iff the text is non-empty; a text bubble shows the text with its drag range; avatars are the persona's for AI, the user's for the user |
| `ChatMessage.DeleteRequest` | src/components/chat/chat-message.tsx:95-114 | a deletion is asked for, with the message's id, iff it is a text bubble and either the AI's trash button is clicked or a user's bubble is dragged past -50; the user's trash button does nothing |
| `ChatMessage.GreetingIsNeverDeleted` | src/components/chat/chat-message.tsx:23-35 | the greeting renders as such whatever its sender or image, and no gesture deletes it |
| `ChatMessage.SwipeThresholdWithinDragRange` | src/components/chat/chat-message.tsx:108-114 | a user's text bubble is deleted by a drag iff it ends left of -50, a point inside its drag range |
| `PersonaSettings.LoadPersonas` | src/app/settings/persona/page.tsx:22-34 | stored personas are used when present and parsable, the defaults when absent or unparsable |
| `PersonaSettings.SelectedPersona` | src/app/settings/persona/page.tsx:36 | a persona is selected iff the key is non-empty and in the map, and it is that entry |
| `PersonaSettings.Rename` | src/app/settings/persona/page.tsx:38-49 | with no selected persona nothing changes; otherwise only the entry under the selected persona's key changes, to that persona with the new name |
| `PersonaSettings.CommitAvatar` | src/app/settings/persona/page.tsx:55-64 | only the entry under the captured persona's key changes, to that persona with the new avatar |
| `PersonaSettings.RenameChangesOnlyName` | src/app/settings/persona/page.tsx:38-49 | with consistent keys, a rename changes only the selected entry's name and keeps the keys consistent |
| `PersonaSettings.CommitAvatarChangesOnlyAvatar` | src/app/settings/persona/page.tsx:55-64 | with consistent keys, an avatar commit changes only the selected entry's avatar and keeps the keys consistent |
| `PersonaSettings.PersonaSettingsPage.constructor` | src/app/settings/persona/page.tsx:17-18 | the page starts with no personas and no selection |
| `PersonaSettings.PersonaSettingsPage.Load` | src/app/settings/persona/page.tsx:22-34 | the mount effect leaves `LoadPersonas` of the stored value |
| `PersonaSettings.PersonaSettingsPage.SelectPersona` | src/app/settings/persona/page.tsx:111 | a tile click selects its key and changes nothing else |
| `PersonaSettings.PersonaSettingsPage.HandleNameChange` | src/app/settings/persona/page.tsx:38-49 | the map becomes `Rename` of the old map |
| `PersonaSettings.PersonaSettingsPage.HandleAvatarChange` | src/app/settings/persona/page.tsx:51-53 | a read starts iff a file is chosen and a persona selected, capturing the current map and persona |
| `PersonaSettings.PersonaSettingsPage.CompleteAvatarUpload` | src/app/settings/persona/page.tsx:55-64 | the map becomes `CommitAvatar` of the captured map |
| `PersonaSettings.PersonaSettingsPage.HandleSave` | src/app/settings/persona/page.tsx:69-71 | the whole personas map is written |
| `PersonaSettings.SaveDisabled` | src/app/settings/persona/page.tsx:169 | save is disabled iff no non-empty key is selected; the style page's save button (src/app/settings/persona-style/page.tsx:132) has the same rule |
| `PersonaStyleSettings.LoadSettings` | src/app/settings/persona-style/page.tsx:23-34 | stored personas and styles are used when present, else the defaults and {}; if either parse throws, the personas are the defaults and the styles keep their prior value |
| `PersonaStyleSettings.SetStyle` | src/app/settings/persona-style/page.tsx:38-45 | with no selected key nothing changes; otherwise only the selected key takes the new value |
| `PersonaStyleSettings.DisplayedStyle` | src/app/settings/persona-style/page.tsx:119 | the box shows the stored style, or '' for a key without one |
| `PersonaStyleSettings.StyleEditRoundTrip` | src/app/settings/persona-style/page.tsx:38-45 | after typing a value for the selected key, the box shows that value and other keys show what they showed |
| `PersonaStyleSettings.PersonaStylePage.constructor` | src/app/settings/persona-style/page.tsx:17-19 | the page starts with empty maps and no selection |
| `PersonaStyleSettings.PersonaStylePage.Load` | src/app/settings/persona-style/page.tsx:23-34 | the mount effect leaves `LoadSettings` of the stored values and the prior styles |
| `PersonaStyleSettings.PersonaStylePage.SelectPersona` | src/app/settings/persona-style/page.tsx:90 | a tile click selects its key and changes nothing else |
| `PersonaStyleSettings.PersonaStylePage.HandleStyleChange` | src/app/settings/persona-style/page.tsx:38-45 | the styles become `SetStyle` of the old styles; personas and selection are kept |
| `PersonaStyleSettings.PersonaStylePage.HandleSave` | src/app/settings/persona-style/page.tsx:47-49 | the whole styles map is written |
| `PersonaStyleSettings.PersonaStylePage.StyleCardShown` | src/app/settings/persona-style/page.tsx:103 | the style card shows iff the selected key names a loaded persona |
| `ImageGeneration.ImageGenerationPage.constructor` | src/app/settings/image-generation/page.tsx:17-19 | empty prompt, no image, not busy |
| `ImageGeneration.ImageGenerationPage.ChangePrompt` | src/app/settings/image-generation/page.tsx:79-81 | the prompt takes the typed value unless the input is disabled by a running generation |
| `ImageGeneration.ImageGenerationPage.Start` | src/app/settings/image-generation/page.tsx:21-31 | an empty prompt is refused with a toast and changes nothing; any other prompt, whitespace included, makes the page busy and clears the previous image |
| `ImageGeneration.ImageGenerationPage.Finish` | src/app/settings/image-generation/page.tsx:32-44 | on success the image is the returned URI; on failure it stays as it was (cleared) with an error toast; the page is never left busy |
| `ImageGeneration.ImageGenerationPage.HandleGenerateImage` | src/app/settings/image-generation/page.tsx:21-45 | a started generation ends not busy, holding the flow's image or none, with an error toast exactly when it holds none |
| `ImageGeneration.ImageGenerationPage.ControlsDisabled` | src/app/settings/image-generation/page.tsx:81-84 | the prompt input and the button are disabled iff a generation runs |
| `ImageGeneration.ImageGenerationPage.ShowsImage` | src/app/settings/image-generation/page.tsx:94 | the image shows iff one is held and it is non-empty |

## Left out

- The chat session page (`src/app/chat/[role]/page.tsx`): its message log, history window, rollback on failure and persistence are not part of this model.
- `Personas.Lookup`: models own-property lookup only. JavaScript's `personas[key]` also finds names inherited from `Object.prototype` (`constructor`, `toString`, `__proto__`, `hasOwnProperty`, …), whose values are truthy. The model has no prototype chain and returns no entry for them. So a route such as `/chat/constructor` also passes the chat page's `if (currentPersona)` guard (`src/app/chat/[role]/page.tsx:30-32`); that page is not part of this model.
- `ai.generate`, `ai.definePrompt` and handlebars rendering: the model calls are function parameters and the templates are ordered lists of sections, not rendered text; HTML escaping of `{{chatHistory}}` is not modelled.
- `PersonaChat.ParseLanguage`: states the schema's declared default `'English'`; whether the schema library applies a default placed before `.optional()` is library behaviour outside this model.
- `PersonaChat.PersonaChatFlow`: a null `output` is modelled as a failure of the flow (its output schema rejects it); the library's own error values are not modelled.
- `Promise.all` concurrency: the five calls are a sequence of settled replies; which rejection wins when several reject is not modelled.
- `src/ai/flows/voice-mood.ts`, `src/ai/flows/summarize-mood.ts`, `src/ai/flows/combine-images.ts`, `src/ai/dev.ts`: wrappers around one model call, no logic of their own.
- Pure markup: `src/app/page.tsx`, `src/app/settings/page.tsx`, `src/app/settings/user-profile/page.tsx`, `src/components/chat/chat-header.tsx`, `src/components/chat/chat-messages.tsx`, styling, Framer Motion elasticity and animation, focus and scrolling effects.
- `localStorage`, `JSON.parse`/`JSON.stringify`, `FileReader`, `router.push`, toasts and console logging are I/O: reads are optional strings, parsing is a function parameter, writes are returned values; a `getItem` or `setItem` that throws, a JSON value of the wrong shape, and the `icon` lost by JSON round-tripping are not modelled.
- `ChatMessage.FirstChar`: returns the whole first character; `charAt(0)` returns one UTF-16 code unit, half of a character outside the Basic Multilingual Plane.
- `ChatMessage.DeleteRequest`: drag offsets are exact reals; floating-point rounding is not modelled.
- `PersonaSettings.PersonaSettingsPage.CompleteAvatarUpload`: a failed read, whose `result` is null, is not modelled; the data URL is a string.
- The text-length counter in `chat-input.tsx` is display only.
