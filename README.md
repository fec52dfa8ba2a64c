# YAML Studio core, modelled in Dafny

YAML Studio is a desktop editor for Docker Compose files (and, in its later
version, Dockerfiles). This project models the logic of that editor that does
not depend on the screen:

- **the validator** (`services/yamlService.ts`). `validateYaml` treats blank text
  as valid. It turns a loader exception into an invalid verdict that carries a
  1-based line when the exception has a mark. Otherwise it runs `validateDockerComposeStructure`, a shallow
  first-error-wins check with these steps:
  - the root must be an object;
  - a truthy `version` must be a string;
  - a truthy `services` must be an object, and each service entry must be a
    non-null object with `image` or `build`, list `ports` and object `volumes`;
  - without `services`, the root keys must pass the whitelist's prefix test.

  Also in this file, `formatYaml` reformats through the loader and dumper and
  falls back to the input.
- **the fixed data** (`constants.ts`): the welcome document, the six templates,
  and the completion vocabularies.
- **the completion providers** (`src/views/main/App.tsx`, and the same code in
  the earlier `App.tsx`).
  - The YAML provider classifies the text before the cursor:
    `/image:\s*$/`, or "image:" present while the trimmed text does not end in
    ":"; then `/^\s+[\w-]*$/`; then `/^[\w-]*$/`. It returns the matching
    vocabulary unfiltered.
  - The Dockerfile provider returns every instruction.
- **the snapshot history** (`src/views/main/App.tsx`), modelled as the class
  `History.HistoryBuffer`. Its fields are the entry list and the current index.
  - `Record` is the debounced effect. It does nothing when the text is
    unchanged. Otherwise it keeps the entries up to the index, drops the oldest
    when more than 50 were kept, appends, and points at the new entry.
  - `Restore` is `handleRestoreHistory`.
- **the editor's decision rules** (`EditorRules`):
  - validation only in YAML mode;
  - when loading a template asks for confirmation;
  - how a converted `docker run` fragment is merged;
  - which language a file name selects;
  - formatting only in YAML mode;
  - the guard of the AI repair;
  - the earlier copy's change handler.

The YAML parser and dumper (js-yaml) are parameters of every operation that
uses them. `load: string -> LoadOutcome` either yields a tree or throws with a
message and an optional 0-based mark line. `dump: Node -> Option<string>` yields
text or throws.

JavaScript semantics are written out:
- Truthiness: `null`, `undefined`, `false`, `0` and `''` are falsy; arrays and
  objects are always truthy.
- `typeof x === 'object'` holds for `null`, arrays and mappings.
- `Object.entries` of an array gives the keys "0", "1", ….
- `\s` is the JavaScript whitespace set, which is also the set `trim` removes.

Where the code does something other than its names or comments suggest, the model follows the code:
- The history holds up to **51** entries, not 50. The eviction test runs on the
  kept prefix before the new entry is appended (`src/views/main/App.tsx:57-61`).
- A non-empty array root passes the object test. It then fails the whitelist on
  its first index ("Unknown root level key: '0'"), not with the root message.
- `services: []` is accepted. The services check runs over the array's (empty)
  entries.
- In `handleTemplateSelect`, `handleCliConvert` and `handleFileChange`,
  `updateCode` still sees the language from before the switch. Leaving
  Dockerfile mode this way therefore does not revalidate at once. The debounced
  effect does so later.

## Model

| member | source | states |
|---|---|---|
| Text.TrimStart | src/views/main/App.tsx:116 | the result is a suffix of the input, everything dropped is whitespace, and it does not start with whitespace |
| Text.TrimEnd | src/views/main/App.tsx:298 | `trimEnd`: the result is a prefix of the input, everything dropped is whitespace, and it does not end with whitespace |
| Text.Trim | services/yamlService.ts:5 | `trim` yields a slice of the input with only whitespace before and after it and no whitespace at either of its ends, so "" exactly when the text is all whitespace |
| Text.TrimKeepsLastNonSpace | src/views/main/App.tsx:96 | trimming a text that ends in a non-whitespace character keeps that character last |
| Text.ToLower | src/views/main/App.tsx:242 | lower-casing keeps the length of the name |
| Text.ToLowerIdempotent | src/views/main/App.tsx:242 | lower-casing twice is lower-casing once |
| Text.DecimalString | services/yamlService.ts:38 | an array index as a property key is a non-empty string of digits, with no leading zero, whose decimal value is the index |
| Constants.RootKeysShape | constants.ts:161 | six distinct root keys, `version` and `services` first |
| Constants.ServiceKeysShape | constants.ts:163-168 | twenty distinct service keys, `image` and `build` first |
| Constants.CommonImagesShape | constants.ts:170-180 | twenty distinct image tags |
| Constants.CommonImagesEndInWordChar | constants.ts:170-180 | every image tag ends in a letter or digit, so never in a colon or whitespace |
| Constants.TemplateIdsDistinct | constants.ts:14-158 | six templates with pairwise distinct ids |
| YamlService.Entries | services/yamlService.ts:38 | `Object.entries` of a mapping is its own entries in order; of an array, entry `i` is the index's decimal string paired with element `i`; of anything else, nothing |
| YamlService.Keys | services/yamlService.ts:56-61 | `Object.keys` lists the keys of `Object.entries`, in the same order |
| YamlService.FirstServiceError | services/yamlService.ts:38-55 | the loop gives no message iff every service entry passes; otherwise it gives the message of the first failing entry |
| YamlService.UnknownKeys | services/yamlService.ts:61 | the filter keeps exactly the keys that fail the whitelist, and its head is the first such key in the original order |
| YamlService.ValidateStructure | services/yamlService.ts:21-68 | the structural verdict is valid iff it has no error, and it never carries a line |
| YamlService.Truthy | services/yamlService.ts:27 | JavaScript truthiness as the validator's `&&` and `!` tests use it; stated through `VersionRule`, `ServicesRule`, `ServicesNotObject`, `EmptyServicesValid` and `ServiceAcceptedIff` |
| YamlService.IsObject | services/yamlService.ts:22 | `typeof x === 'object'`, true for `null`, arrays and mappings; stated through `RootMustBeObject`, `ArrayRoot`, `ServicesNotObject` and `ArrayServiceLacksImage` |
| YamlService.ServiceError | services/yamlService.ts:39-54 | the four checks of one service entry in order; stated through `ServiceAcceptedIff`, `ServiceErrorNamesService`, `ServiceMessageHead` and `ArrayServiceLacksImage` |
| YamlService.ValidateYaml | services/yamlService.ts:4-19 | the verdict is valid iff it has no error; a valid verdict has no line; a line, when present, is at least 1 |
| YamlService.LoadedGoesToStructure | services/yamlService.ts:9-11 | non-blank text that the loader accepts gets the structural verdict on the loaded tree |
| YamlService.BlankIsValid | services/yamlService.ts:5-7 | empty and whitespace-only text is valid whatever the loader does |
| YamlService.LoaderFailure | services/yamlService.ts:12-17 | a loader exception on non-blank text gives an invalid verdict with its message (or 'Invalid YAML' when the message is empty) and the mark line plus one, absent without a mark |
| YamlService.LineOnlyFromLoader | services/yamlService.ts:16 | only a loader exception with a mark yields a line |
| YamlService.ServiceErrorNamesService | services/yamlService.ts:40-53 | every service message starts with "Service '" and the service's name |
| YamlService.ServiceAcceptedIff | services/yamlService.ts:39-54 | a service passes iff it is an array or mapping, has a truthy `image` or `build`, its truthy `ports` is an array and its truthy `volumes` is an object |
| YamlService.ArrayServiceLacksImage | services/yamlService.ts:39-46 | an array as a service configuration passes the object test and then fails with the image-or-build message |
| YamlService.ServiceMessageHead | services/yamlService.ts:40-53 | service messages are non-empty and start with 'S' |
| YamlService.StructureMessageKinds | services/yamlService.ts:21-68 | every structural message is one of the three fixed ones, a `Service '<name>'…` message (beginning with 'S') or an `Unknown root level key: '<key>'` message (beginning with 'U') |
| YamlService.RootMustBeObject | services/yamlService.ts:22-24 | the root message is given exactly for roots that are neither array nor mapping |
| YamlService.ArrayRoot | services/yamlService.ts:21-65 | a non-empty array root fails the whitelist on key "0"; an empty one is valid |
| YamlService.VersionRule | services/yamlService.ts:27-29 | the version message is given exactly for a mapping root whose `version` is truthy and not a string |
| YamlService.ServicesRule | services/yamlService.ts:32-55 | once `version` passes, with a truthy object `services`, the verdict is valid iff every entry passes, and otherwise it is the first failing entry's message |
| YamlService.ServicesNotObject | services/yamlService.ts:32-35 | once `version` passes, a truthy `services` that is not an object (a string, a non-zero number, `true`) gives the services message |
| YamlService.EmptyServicesValid | services/yamlService.ts:32-38 | once `version` passes, `services: {}` and `services: []` make the document valid whatever else it holds |
| YamlService.WhitelistRule | services/yamlService.ts:56-65 | once `version` passes and without `services`, the root is valid iff every key passes the prefix whitelist; otherwise the message names the first failing key |
| YamlService.WhitelistIsPrefixTest | services/yamlService.ts:60-61 | `versions`, `volumes_x` and `x-common` pass the whitelist; `service`, "0" and "" do not |
| YamlService.FormatYaml | services/yamlService.ts:70-77 | `formatYaml`; stated through `FormatKeepsUnloadableText` and `FormatIsDumpOfLoadedTree` |
| YamlService.FormatKeepsUnloadableText | services/yamlService.ts:70-76 | when loading throws, formatting returns the input unchanged |
| YamlService.FormatIsDumpOfLoadedTree | services/yamlService.ts:71-75 | when loading succeeds, formatting returns the dump of the loaded tree, or the input if dumping throws |
| TemplateDocuments.PlainServicePasses | services/yamlService.ts:39-54 | a service whose first key is a non-empty `image` and whose `ports`/`volumes` are lists passes every service check |
| TemplateDocuments.PlainComposeIsValid | services/yamlService.ts:21-68 | a document of version '3.8' followed by such services is valid |
| TemplateDocuments.TemplatesArePlain | constants.ts:14-158 | the welcome document and each of the six templates has that shape |
| TemplateDocuments.TemplatesAreValid | constants.ts:3-158 | the welcome document and every template pass the structural check |
| Completion.ProvideYamlCompletions | src/views/main/App.tsx:86-138 | per context, the suggestions are exactly the images (kind Value, inserted as is), the service keys or the root keys (inserted with ": "), in order, or none; every range lies on the cursor's line and covers the word at the cursor, or is empty at the cursor |
| Completion.ProvideDockerfileCompletions | src/views/main/App.tsx:142-162 | one Keyword suggestion per instruction, in order, inserting the instruction and a space over the word at the cursor |
| Completion.Classify | src/views/main/App.tsx:106-136 | the three-way test on the text before the cursor, first match wins; stated through `ImageColonAtEndIff`, `IndentedKeyLineIff`, `KeyPatternsDisjoint`, `ImagesNeedImageColon` and `ClassifyExamples` |
| Completion.ImageColonAtEndIff | src/views/main/App.tsx:106 | `/image:\s*$/` matches iff the text without its trailing whitespace ends in "image:" |
| Completion.IndentedKeyLineIff | src/views/main/App.tsx:116 | `/^\s+[\w-]*$/` matches iff the text starts with whitespace and the rest after the leading whitespace is word characters and hyphens |
| Completion.KeyPatternsDisjoint | App.tsx:81-93 | the indented-key and root-key patterns never both match |
| Completion.ImagesNeedImageColon | src/views/main/App.tsx:106 | image suggestions come only on text containing "image:" |
| Completion.UnanchoredImageTest | src/views/main/App.tsx:106 | any text ending in "image:" and optional whitespace (such as "myimage:") asks for images |
| Completion.ImageThenColonGetsNothing | src/views/main/App.tsx:106-136 | text with "image:" whose trimmed form ends in another colon gets no suggestions |
| Completion.ImageColonThenValue | src/views/main/App.tsx:106 | text with "image:" ending in a character that is neither whitespace nor a colon asks for images |
| Completion.EmptyPrefixGetsRootKeys | src/views/main/App.tsx:126 | in column 1 the root keys are offered |
| Completion.BlankIndentGetsServiceKeys | src/views/main/App.tsx:116 | on a whitespace-only prefix the service keys are offered |
| Completion.ClassifyExamples | App.tsx:69-93 | "  " gets service keys, "image: " images, "ser" root keys and "# comment" nothing |
| Completion.AcceptImageKeyThenImages | src/views/main/App.tsx:116-125 | accepting the first service-key suggestion (`image`) on an indented line leads to image suggestions |
| Completion.AcceptedImageStaysImageValue | src/views/main/App.tsx:106-115 | after a suggested image tag is typed behind "image: ", images are still offered |
| Completion.RootKeySuggestionsAreWhitelisted | src/views/main/App.tsx:126-135 | every root-key suggestion passes the validator's whitelist |
| History.AfterRecord | src/views/main/App.tsx:54-63 | recording keeps the timeline consistent (never empty, index in range, at most 51 entries) and the current entry holds the recorded text |
| History.HistoryBuffer.constructor | src/views/main/App.tsx:40-41 | the history starts with the one initial entry at index 0 |
| History.HistoryBuffer.Record | src/views/main/App.tsx:54-63 | the new buffer and index are those of `AfterRecord`, and consistency is kept |
| History.HistoryBuffer.Restore | src/views/main/App.tsx:211-218 | the new state is that of `AfterRestore`, and the text handed back is the target entry's, if the target is in range |
| History.AfterRestore | src/views/main/App.tsx:211-218 | the timeline after `handleRestoreHistory`; stated through `RestoreOnlyMovesIndex` and `RestoreThenRecordIsNoOp` |
| History.RestoredText | src/views/main/App.tsx:211-215 | the text handed to `updateCode` by a restore; stated through `RestoreOnlyMovesIndex` |
| History.RecordUnchangedTextIsNoOp | src/views/main/App.tsx:55 | recording the current entry's text changes nothing |
| History.RecordNewText | src/views/main/App.tsx:55-62 | a new text keeps the entries up to the index (less the oldest beyond 50), drops the rest, appends the new entry and points at it |
| History.EvictionShiftsDown | src/views/main/App.tsx:57-62 | at the cap, the oldest entry goes, every other moves down one place, and the buffer stays at 51 |
| History.RestoreOnlyMovesIndex | src/views/main/App.tsx:211-218 | a restore in range moves only the index and hands back that entry's text; out of range it changes nothing |
| History.RestoreThenRecordIsNoOp | src/views/main/App.tsx:211-218 | the debounced record after a restore does not start a branch |
| History.BranchTruncation | src/views/main/App.tsx:57 | restoring an earlier entry and then editing drops the later entries |
| History.RecordAll | src/views/main/App.tsx:45-67 | any run of debounced records keeps the timeline consistent |
| History.RecordAllAppends | src/views/main/App.tsx:55-62 | below the cap, N changing texts append N entries in order, each with its own timestamp, and leave the index on the last |
| History.RecordFromInitial | src/views/main/App.tsx:40-62 | from the initial entry, N ≤ 50 changing texts give N + 1 entries with the index at N |
| EditorRules.UpdateCode | src/views/main/App.tsx:169-175 | `updateCode`; stated through `ValidateOnlyInYamlMode` |
| EditorRules.SettledValidation | src/views/main/App.tsx:48-52 | the verdict of the debounced effect; stated through `ValidateOnlyInYamlMode` |
| EditorRules.ValidateOnlyInYamlMode | src/views/main/App.tsx:169-175 | in Dockerfile mode the settled verdict is valid and an edit keeps the old verdict; in YAML mode both are the validator's verdict on the new text |
| EditorRules.SelectTemplate | src/views/main/App.tsx:177-188 | `handleTemplateSelect`; stated through `TemplateConfirmation` |
| EditorRules.SelectTemplateEarlier | App.tsx:119-126 | the earlier copy's `handleTemplateSelect`; stated through `TemplateConfirmation` and `NoQuestionForBlankOrInitial` |
| EditorRules.TemplateConfirmation | src/views/main/App.tsx:177-188 | confirmation is asked iff the text is not blank and not the welcome text; declining changes nothing; otherwise the template text is loaded in YAML mode |
| EditorRules.NoQuestionForBlankOrInitial | App.tsx:119-126 | blank text and the untouched welcome text are replaced without a question |
| EditorRules.MergeFragment | src/views/main/App.tsx:296-302 | where a converted fragment goes in YAML mode; stated through `MergeFragmentShape` |
| EditorRules.MergeFragmentShape | src/views/main/App.tsx:296-302 | the merge is the text (less exactly its trailing whitespace when it contains "services:"), a newline and the whole fragment |
| EditorRules.CliConvert | src/views/main/App.tsx:277-311 | `handleCliConvert` once the fragment exists; stated through `CliConvertOutcomes` |
| EditorRules.CliConvertOutcomes | src/views/main/App.tsx:277-311 | Dockerfile mode without consent changes nothing; with consent the fragment becomes the YAML text; YAML mode appends the fragment after the trimmed text |
| EditorRules.DetectLanguage | src/views/main/App.tsx:242-247 | the language a file name selects; stated through `DetectLanguageIgnoresCase` and `DetectLanguageExamples` |
| EditorRules.DetectLanguageIgnoresCase | src/views/main/App.tsx:242-247 | the detected language does not depend on the case of the name |
| EditorRules.DetectLanguageExamples | src/views/main/App.tsx:242-247 | "Dockerfile" and "api.DOCKERFILE" open as Dockerfile, "docker-compose.yml" as YAML |
| EditorRules.OpenFile | src/views/main/App.tsx:238-259 | `handleFileChange` once the file is read; stated through `OpenFileOutcomes` |
| EditorRules.OpenFileOutcomes | src/views/main/App.tsx:238-259 | the language comes from the name alone; a non-empty file replaces the text; the verdict is recomputed only if the editor was in YAML mode before |
| EditorRules.FixRequested | src/views/main/App.tsx:313-314 | the guard of `handleFixError`; stated through `FixRequestedIffInvalid` |
| EditorRules.FixRequestedIffInvalid | src/views/main/App.tsx:313-318 | an AI repair is requested exactly for invalid verdicts of the validator |
| EditorRules.HandleFormat | src/views/main/App.tsx:190-196 | `handleFormat`; stated through `FormatIsSafe` |
| EditorRules.FormatIsSafe | src/views/main/App.tsx:190-196 | formatting leaves a Dockerfile alone and never loses text that does not load |
| EditorRules.HandleCodeChange | App.tsx:113-117 | an `undefined` value keeps the text; a defined one replaces it |

## Left out

- The YAML grammar and dumper of js-yaml: they are the parameters `load` and `dump`. Formatter idempotence and the claim that a reported line lies within the text depend on them, so neither is stated.
- JavaScript's property order for integer-like keys of a mapping: a mapping's entries are kept in the loader's order.
- YamlService.Lookup: when a mapping repeats a key, the first binding is read. js-yaml rejects duplicate keys, so this case never arises through the loader.
- Floats: the validator reads a number only through truthiness and `typeof`, so a float is represented as `Num(0)` when it is falsy (0, -0, NaN) and as a non-zero `Num` otherwise.
- Dates: js-yaml loads a timestamp as a `Date`, which is truthy, has `typeof` 'object', is not an array and has no own enumerable property. It acts exactly like `Map([])` under every check and is represented that way. So `version: 2020-01-01` gets the version message, and a date root is valid.
- Binary values: js-yaml loads `!!binary` as a `Uint8Array`, which has `typeof` 'object', is not an array and has the keys "0", "1", …. No `Node` behaves that way (as `ports` it fails the array test, unlike `Seq`; as a root its keys fail the whitelist, unlike `Map([])`), so it is not represented.
- YamlService.ValidateYaml: an exception whose `message` is `undefined` is modelled as the empty message. Both fall back to 'Invalid YAML'.
- Debounce timers (600 ms and 300 ms), React re-rendering and the order of state updates: the debounced effect is modelled as one step after the edits have settled.
- The Monaco editor: the text before the cursor, the cursor position and `getWordUntilPosition` are inputs. The widget's own undo and redo are not modelled.
- Completion.ProvideDockerfileCompletions: the list of Dockerfile instructions is a parameter. `DOCKERFILE_INSTRUCTIONS` is imported by `src/views/main/App.tsx` from `src/views/main/constants.ts`; that file is not part of this model (the root `constants.ts` does not define the list).
- `src/views/main/constants.ts` is not part of this model: the welcome text, the key lists and the image list that `src/views/main/App.tsx` imports from it are taken to be those of the root `constants.ts`.
- Text.ToLower: lower-cases ASCII letters only; non-ASCII letters in a file name are left as they are.
- `window.confirm` is a boolean parameter. `alert` is not modelled.
- The AI services (`geminiService.ts`), with the text they produce: the generated, converted or repaired text is a parameter, and a failed request leaves the state unchanged.
- File saving (Blob, download link), file reading (FileReader; the read text is a parameter), the clipboard, and every UI component, panel flag and loading flag.
- The application bootstrap (`main.ts`, `src/bun/index.ts`, `electrobun.config.ts`) and the unused `EditorStatus` enum in `types.ts`.
- TemplateDocuments: the trees of the welcome document and the templates are written by hand from their text, because the parser is abstract. That they are what js-yaml yields for that text is not proved.
- Template names and descriptions are copied as data but not used by any property.
