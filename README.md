# React Scribe dashboard: a Dafny model of its core logic

React Scribe is a browser dashboard for eye-care dictation. A clinician
records or uploads a patient visit. The audio is streamed to a
transcription backend, and the resulting SOAP note (subjective, objective,
assessment, plan) is shown, searched, copied and sent to the practice's EMR
(electronic medical record).

This project models the parts of the dashboard that compute or keep state:

- `NoteText` (note_text.dfy) covers the text converters of the medical-record view:
  - the key labels shown on screen and in copied text;
  - `convertNoteToString`, the copy-to-clipboard text;
  - `convertNoteForAPI`, the value sent to the EMR;
  - the split behind `highlightText`.
- `EyeSections` (eye_sections.dfy) covers how `NoteRenderer` lays out a note value.
  - An eye-exam object becomes an OD/OS table (right eye / left eye).
  - The table's `sections` dictionary is built by the two grouping loops.
  - The rows come in JavaScript's key-enumeration order.
- `Dictation` (dictation.dfy) is the speaker segmentation of a stored
  dictation (`parsedDictation`). It is built on `LiteralSplit`
  (literal_split.dfy), a model of `String.prototype.split` with a capturing
  regular expression of fixed width.
- `Pcm` (pcm.dfy) is the float-to-16-bit little-endian PCM encoder of the
  audio callback.
- `Transcription` (transcription.dfy) is the live-transcription service.
  - Its six module-level handles are modelled as a `TranscriptionService` class.
  - The class changes under start, stop, socket open, socket close, audio blocks and messages.
  - A log of effects records what is done to the browser objects.
- `Toolbar` (toolbar.dfy) is the floating recording toolbar: drag clamping,
  the expand animation flag, the recording timer with pause and resume, the
  MM:SS display, and the 200 MiB upload guard.
- `PatientViewer` (patient_viewer.dfy) is the patient viewer's two fetch
  effects, its loading flag, and its M:SS clock.
- `DevProxy` (dev_proxy.dfy) is the development server's proxy table: which
  backend a path goes to and how the path is rewritten.
- `Strings` and `Json` (strings.dfy, json.dfy) model the JavaScript built-ins these rely on:
  - trim and `\s`;
  - ASCII case mapping;
  - number to string and `padStart(2, '0')`;
  - join and line splitting;
  - truthiness, `typeof`, template-literal conversion;
  - `length`, indexing and the comparison `> 0` on note values;
  - `Array.prototype.filter`, which keeps order;
  - the own-key order of an object: array-index keys first, ascending, then the other keys in insertion order.

Note values are a `Json` datatype. `null` and `undefined` are both `Null`,
and numbers are integers. An object's entries are listed in the order
`Object.entries` reports them, with distinct keys.

Event handlers become methods of classes whose fields are the component's
state. Each method's `ensures` ties the new state to a pure transition
function, and the lemmas are stated about those functions. Browser timers
are events:

- the toolbar's one-second interval firing is `OnTick`;
- the 500 ms expand timeout is `OnAnimationDone`;
- a drag move's animation-frame callback is applied at once.

## Model

| member | source | states |
|---|---|---|
| NoteText.SpaceBeforeCapitals | src/components/MedicalRecordView.tsx:147 | After the space insertion, a label never starts with a capital. |
| NoteText.SpaceBeforeCapitalsRoundTrip | src/components/MedicalRecordView.tsx:147 | `replace(/([A-Z])/g, ' $1')` adds exactly one character per capital. Deleting each space before a capital gives the key back, so nothing else changes. |
| NoteText.CapitalsArePreceded | src/components/MedicalRecordView.tsx:147 | In a spaced-out key, every capital has a space right before it. |
| NoteText.UpperFirstChangesOnlyCase | src/components/MedicalRecordView.tsx:147 | `replace(/^./, toUpperCase)` changes only the case of the first letter: the label reads the same ignoring case, and it never starts with a lower-case letter. |
| NoteText.DisplayLabelSpacesCapitals | src/components/MedicalRecordView.tsx:256 | The on-screen label is one character longer per capital and equals the spaced-out key ignoring case. It never starts with a lower-case letter. For a key not starting with a lower-case letter, removing the inserted spaces gives the key back. |
| NoteText.LabelsOfCapitalisedKey | src/components/MedicalRecordView.tsx:341 | A key starting with a capital gets a display label and a copy label that both start with a space and then that capital. |
| NoteText.SpaceBeforeNoCapitals | src/components/MedicalRecordView.tsx:256 | A key without capitals is not changed by the space insertion. |
| NoteText.ChiefComplaintLabel | src/components/MedicalRecordView.tsx:256 | The display label of "ChiefComplaint" is " Chief Complaint". |
| NoteText.CopyLabelCharacters | src/components/MedicalRecordView.tsx:341 | A copy label never contains a line break or an underscore: all whitespace is deleted and every '_' becomes ' ' first. |
| NoteText.CopyLabelOfPlainKey | src/components/MedicalRecordView.tsx:341 | For a key without whitespace or underscores, the copy label is the display label. |
| NoteText.ChiefComplaintCopyLabel | src/components/MedicalRecordView.tsx:341 | The copy label of "ChiefComplaint" is " Chief Complaint". |
| NoteText.NoteToStringScalars | src/components/MedicalRecordView.tsx:329-344 | null and "None" copy as "". Other strings copy unchanged. Numbers and booleans copy as "" (the final `return ''`), and so do an empty array and an empty object. |
| NoteText.NoteToStringLines | src/components/MedicalRecordView.tsx:329-345 | The lines of the copied text are exactly `CopyLines`: a string's own lines, an array's items' lines in order, an object's entries' lines in order with each entry's first line prefixed by "Label: ", and one empty line for everything else. |
| NoteText.ArrayCopyLines | src/components/MedicalRecordView.tsx:336-338 | The lines of a copied array are the lines of its items, in item order. |
| NoteText.ObjectCopyLines | src/components/MedicalRecordView.tsx:339-343 | The lines of a copied object are those of its "Label: value" entries, in entry order. |
| NoteText.FlatObjectCopyLines | src/components/MedicalRecordView.tsx:339-343 | An object of one-line strings copies as exactly one "Label: value" line per entry, in entry order. |
| NoteText.SingleEntryCopy | src/components/MedicalRecordView.tsx:340-342 | A one-entry object with a string value copies as the single line "CopyLabel(key): value". |
| NoteText.NoteForApi | src/components/MedicalRecordView.tsx:376-405 | The result is a string, or an array of strings exactly when the input is an array. It has the same length, and each item is written as its `key: value` pairs or as `String(item)`. |
| NoteText.NoteForApiScalars | src/components/MedicalRecordView.tsx:377-393 | null and "None" give "". Other strings are kept. Numbers and booleans are written with `String`. A null array item becomes "null". |
| NoteText.ObjectForApiIsPairs | src/components/MedicalRecordView.tsx:396-401 | An object whose values are strings other than "None", numbers or booleans is sent as its `key: value` pairs joined by single spaces. |
| NoteText.StringArrayForApi | src/components/MedicalRecordView.tsx:385-395 | An array of strings is sent unchanged. |
| NoteText.NestedArrayForApi | src/components/MedicalRecordView.tsx:397-401 | A nested array under a key is written with commas: {"Plan": ["rest", "drops"]} gives "Plan: rest,drops". |
| Strings.Trim | src/components/MedicalRecordView.tsx:24 | `trim()` removes only leading and trailing whitespace, and leaves a slice that neither starts nor ends with whitespace. The result is empty exactly when the text is all whitespace. |
| NoteText.HighlightText | src/components/MedicalRecordView.tsx:23-40 | The text is left whole exactly when the highlight is blank, and is then unchanged. Otherwise it is split into an odd number of pieces. |
| NoteText.BlankHighlight | src/components/MedicalRecordView.tsx:24-26 | A blank highlight leaves the text whole and unmarked. |
| NoteText.HighlightPieces | src/components/MedicalRecordView.tsx:27-39 | With a non-blank highlight, the pieces concatenate back to the text. A piece is marked exactly when it is an occurrence, which is exactly the odd-numbered pieces. |
| LiteralSplit.Split | src/components/MedicalRecordView.tsx:27-28 | `text.split(/(p)/)` gives an odd number of parts that concatenate back to the text. The odd parts are matches; the even parts contain no match. |
| LiteralSplit.SplitIsLeftmost | src/components/MedicalRecordView.tsx:27-28 | Matching is leftmost: no match starts anywhere inside an even part, so each match is the first one at or after the end of the previous one. |
| LiteralSplit.SplitIsUnique | src/components/MedicalRecordView.tsx:27-28 | The split is the only sequence of parts that concatenates to the text, alternates non-match and match parts, and has no match starting inside a non-match part. |
| Strings.EqualsIgnoreCaseLowers | src/components/MedicalRecordView.tsx:32 | The character-by-character case-insensitive comparison is exactly `a.toLowerCase() === b.toLowerCase()`. |
| LiteralSplit.FindMatch | src/components/AudioTranscriptPanel.tsx:28 | The match found is the leftmost one: there is no match before it. |
| LiteralSplit.SplitWithoutMatch | src/components/AudioTranscriptPanel.tsx:28-31 | A text without a match splits into itself alone. |
| LiteralSplit.SplitWithMatch | src/components/AudioTranscriptPanel.tsx:28-30 | A text with a match splits into at least three parts. |
| Dictation.SpeakerLabelOfMarker | src/components/AudioTranscriptPanel.tsx:37 | `replace(':', '')` on a marker "Speaker X:" gives "Speaker X". |
| Dictation.PairMarkers | src/components/AudioTranscriptPanel.tsx:34-41 | Entry k pairs the marker at part 2k+1 with the trimmed text at part 2k+2, and no part is left unpaired. |
| Dictation.ParseDictation | src/components/AudioTranscriptPanel.tsx:21-42 | The result is null exactly when `dictation?.Table?.[0]?.DICTATION_TEXT` is falsy. A truthy text that is not a string throws at `split`. A string without markers is one speaker-less, untrimmed entry. Otherwise there is one entry per marker, in order. |
| Dictation.DictationTextOfRecord | src/components/AudioTranscriptPanel.tsx:22-26 | A record whose `Table` starts with a row holding `DICTATION_TEXT` yields that text. |
| Dictation.DictationTextOfEmptyTable | src/components/AudioTranscriptPanel.tsx:22 | A record with an empty `Table` yields no text. |
| Dictation.SpeakersAreMarkerLabels | src/components/AudioTranscriptPanel.tsx:27 | Every speaker label is "Speaker " and one capital letter. |
| Dictation.PreambleIsDropped | src/components/AudioTranscriptPanel.tsx:28-40 | The first part is exactly the text before the first marker, which contains no marker and is dropped by the loop. The remaining parts concatenate to the rest of the text. |
| Dictation.SingleSpeakerExample | src/components/AudioTranscriptPanel.tsx:27-28 | "Speaker A: hello " splits into "", "Speaker A:", " hello ". |
| Json.ArrayEntriesInKeyOrder | src/components/MedicalRecordView.tsx:82 | `Object.entries` of an array of at most 2^32 − 1 items names item k by the index key of k. Those keys are already in an object's enumeration order, so the array's order is kept. |
| Json.JsKeyOrderProperties | src/components/MedicalRecordView.tsx:117 | `Object.entries(sections)` lists each key once, array-index keys first in ascending order, then the other keys in insertion order. |
| Json.JsKeyOrderStrict | src/components/MedicalRecordView.tsx:117 | Distinct index keys are listed in strictly ascending numeric order. |
| Json.JsKeyOrderWithoutIndexKeys | src/components/MedicalRecordView.tsx:223 | Without index keys, enumeration is insertion order. |
| EyeSections.CreatedMembers | src/components/MedicalRecordView.tsx:83-85 | A name is a section exactly when it was assigned at least once and is not inherited. |
| EyeSections.CreatedDistinct | src/components/MedicalRecordView.tsx:83-84 | Each section is created once. |
| EyeSections.NeverAssignedIsEmpty | src/components/MedicalRecordView.tsx:84 | A cell that was never assigned keeps its initial ''. |
| EyeSections.LastAssignmentWins | src/components/MedicalRecordView.tsx:86 | A cell holds the value of its last assignment. |
| EyeSections.CreatedInFirstAssignmentOrder | src/components/MedicalRecordView.tsx:83-85 | Sections are created in the order of their first assignment. |
| EyeSections.Place | src/components/MedicalRecordView.tsx:83-86 | One loop step turns the sections of the assignments so far into the sections of one more assignment. |
| EyeSections.AddSide | src/components/MedicalRecordView.tsx:81-88 | The `forEach` over `data.OD` (or `data.OS`) adds its entries' assignments; a falsy or non-object side adds none. |
| EyeSections.GroupDirect | src/components/MedicalRecordView.tsx:76-98 | The anterior-segment `sections` are those of every OD entry followed by every OS entry. |
| EyeSections.RouteOfEyeKey | src/components/MedicalRecordView.tsx:70-72 | The keys the `odosKeys` filter selects are exactly the keys the posterior loop sends to `sections`. |
| EyeSections.GroupIndirect | src/components/MedicalRecordView.tsx:161-192 | The posterior-segment loop builds the `sections` of the eye keys' assignments and the `otherProps` of the remaining keys. |
| EyeSections.IndirectPartition | src/components/MedicalRecordView.tsx:164-191 | Every entry goes to exactly one place. There is one assignment per eye key. `otherProps` is the `Filter` of the non-eye entries: exactly those entries, in the object's order. |
| Strings.Filter | src/components/MedicalRecordView.tsx:101 | `filter` keeps exactly the accepted elements: every result element is accepted and comes from the input, and every accepted input element is in the result. A one-element input is kept or dropped whole. |
| Strings.FilterAppend | src/components/MedicalRecordView.tsx:101 | `filter` keeps order: filtering a concatenation is filtering each part, one after the other. |
| EyeSections.AnteriorOthers | src/components/MedicalRecordView.tsx:101 | The anterior table's other fields are the object's entries other than "OD" and "OS", in the object's order. |
| EyeSections.PosteriorOthers | src/components/MedicalRecordView.tsx:159-192 | The posterior table's other fields are the object's entries without an eye key, in the object's order. |
| EyeSections.ViewOf | src/components/MedicalRecordView.tsx:44-270 | Each kind of value gets its own kind of layout: arrays are listed item by item, objects become a table or a field list, numbers and booleans are printed, and a string other than "" and "None" is shown as it is. An object with an own "hasOwnProperty" key throws a TypeError instead, and only such an object does. |
| EyeSections.Render | src/components/MedicalRecordView.tsx:44-270 | NoteRenderer's layout, with the grouping loops run, is `ViewOf`. |
| EyeSections.RenderObject | src/components/MedicalRecordView.tsx:65-258 | For an object, running the grouping loop that its shape calls for gives the layout `ViewOf` describes. |
| EyeSections.NotAvailableExactly | src/components/MedicalRecordView.tsx:45-47 | "N/A" is shown exactly for null, "None" and "". |
| EyeSections.ObjectLayouts | src/components/MedicalRecordView.tsx:67-76 | An object with an own "hasOwnProperty" key throws. Otherwise an object with own "OD" and "OS" gets the anterior table, another object with an eye key gets the posterior table, others first, and the rest get the field list. The four cases are either-or. |
| EyeSections.RowsMatchSections | src/components/MedicalRecordView.tsx:117-137 | The table has one row per section. Each row's cells show the section's last values, with falsy values shown as "N/A". |
| EyeSections.RowsInAssignmentOrder | src/components/MedicalRecordView.tsx:223 | Without index-like section names, rows come in first-assignment order. The "" section of the posterior table is titled "General". |
| EyeSections.ArraySideNamesAreIndices | src/components/MedicalRecordView.tsx:81-82 | An array under "OD" gives one section per item, named by its index. |
| EyeSections.ConstructorKeyRoutes | src/components/MedicalRecordView.tsx:165-166 | The key "constructor OD" is routed to section "constructor", OD side. |
| EyeSections.InheritedNamesHaveNoRow | src/components/MedicalRecordView.tsx:167-170 | As written, a section named after an Object.prototype member never gets a row. |
| EyeSections.ConstructorRowDropped | src/components/MedicalRecordView.tsx:164-170 | As written, {"constructor OD": "20/20"} renders a table with no row and no other field. |
| EyeSections.EveryAssignedSectionHasRow | src/components/MedicalRecordView.tsx:167-170 | Corrected: every assigned section has its own row. |
| EyeSections.ConstructorRowKept | src/components/MedicalRecordView.tsx:161-192 | Corrected: the same note renders one row "constructor" with OD "20/20" and OS "N/A". |
| Pcm.Clamp | src/services/transcriptionWebSocket.ts:63 | The sample is clamped into [-1, 1]; one already there is unchanged. |
| Pcm.Truncate | src/services/transcriptionWebSocket.ts:64 | ToInt16's integer step rounds toward zero. |
| Pcm.ToInt16 | src/services/transcriptionWebSocket.ts:64 | `setInt16` stores the value modulo 2^16, read as a signed 16-bit integer. |
| Pcm.Quantize | src/services/transcriptionWebSocket.ts:63-64 | Every stored value lies in [-32767, 32767], so -32768 never occurs, and there is no wrap-around. |
| Pcm.QuantizeError | src/services/transcriptionWebSocket.ts:64 | The stored value is within one step of `s * 0x7fff`, rounded toward zero. |
| Pcm.QuantizeSaturates | src/services/transcriptionWebSocket.ts:63-64 | Samples at or beyond full scale encode as ±32767, and silence as 0. |
| Pcm.QuantizeOdd | src/services/transcriptionWebSocket.ts:64 | The encoding is symmetric: -x encodes as the negation. |
| Pcm.QuantizeMonotone | src/services/transcriptionWebSocket.ts:63-64 | A louder sample never encodes smaller. |
| Pcm.Int16RoundTrip | src/services/transcriptionWebSocket.ts:64 | The little-endian byte pair decodes back to the 16-bit value. |
| Pcm.EncodeBlock | src/services/transcriptionWebSocket.ts:57-65 | The buffer has 2 bytes per sample, with sample i at bytes 2i (low) and 2i+1 (high). |
| Pcm.FrameRoundTrip | src/services/transcriptionWebSocket.ts:58-65 | A receiver reading `getInt16(2i, true)` gets the quantized samples back, in order. |
| Transcription.StopClearsEverything | src/services/transcriptionWebSocket.ts:90-124 | After stop, all six handles are null and the service is not transcribing. |
| Transcription.StopIdempotent | src/services/transcriptionWebSocket.ts:90-124 | Stopping twice is stopping once, and the second stop releases nothing. |
| Transcription.StopReleasesExactlyTheSetHandles | src/services/transcriptionWebSocket.ts:92-118 | Each release happens exactly for a set handle. The socket is closed exactly when it is OPEN. |
| Transcription.StopOrder | src/services/transcriptionWebSocket.ts:92-118 | The processor is released first, the context is closed just before the socket, and the socket is closed last. |
| Transcription.StartReplacesOnlyOpenSessions | src/services/transcriptionWebSocket.ts:13-24 | Start stops first only when the socket is OPEN. It installs the callback before connecting to "/transcription-ws/ws". |
| Transcription.StartKeepsAudioOfUnopenedSession | src/services/transcriptionWebSocket.ts:14-16 | A start while the socket is not OPEN neither releases nor forgets the old audio handles. |
| Transcription.OpenedSocket | src/services/transcriptionWebSocket.ts:36-39 | The open event of the current socket makes the service transcribe. An older socket opening changes no variable. Either way its handler then waits for the microphone. |
| Transcription.SetUpSteps | src/services/transcriptionWebSocket.ts:39-76 | A set-up in which every step succeeds sets all four audio handles. A step failing part-way keeps the handles obtained so far. The socket and the callback are untouched. |
| Transcription.SetUpHandlesDistinct | src/services/transcriptionWebSocket.ts:39-48 | The four handles of one set-up are new and distinct. |
| Transcription.StopBeforeSetUpLeavesAudio | src/services/transcriptionWebSocket.ts:36-48 | As written: a stop before the open event, or during the `await getUserMedia`, is followed by a set-up that leaves microphone, context and processor set with no socket. |
| Transcription.LeakedAudioOverwritten | src/services/transcriptionWebSocket.ts:36-48 | As written, after the leak a new start keeps the leaked handles, and the next set-up overwrites all four with new ones, so no later stop releases the leaked ones. |
| Transcription.GuardedStopBeforeSetUp | src/services/transcriptionWebSocket.ts:36-48 | Corrected: with a set-up that checks its socket is still the current OPEN one, the same two traces leave no audio handle set. |
| Transcription.GuardedKeepsAudioWithSocket | src/services/transcriptionWebSocket.ts:11-124 | Corrected: start, stop, open, guarded set-up and a peer close all keep audio handles only beside a socket. For the current open socket, the guarded set-up is the as-written one. |
| Transcription.BlocksOnlyWhileOpen | src/services/transcriptionWebSocket.ts:56-69 | Audio is sent exactly while the socket is OPEN. |
| Transcription.MessagesReachLatestCallback | src/services/transcriptionWebSocket.ts:28-32 | Messages reach the latest callback and are ignored after stop. |
| Transcription.TranscriptionService.constructor | src/services/transcriptionWebSocket.ts:2-9 | On load, every handle is null. |
| Transcription.TranscriptionService.IsTranscribing | src/services/transcriptionWebSocket.ts:126-128 | True exactly when the socket is set and OPEN. |
| Transcription.TranscriptionService.Stop | src/services/transcriptionWebSocket.ts:90-124 | Returns true, ends in the stopped state and logs exactly the stop effects. |
| Transcription.TranscriptionService.ReleaseAudio | src/services/transcriptionWebSocket.ts:92-110 | The four audio handles are released if set, in order, and nulled. |
| Transcription.TranscriptionService.ReleaseSocket | src/services/transcriptionWebSocket.ts:113-118 | The socket is closed only if OPEN, and nulled. |
| Transcription.TranscriptionService.Start | src/services/transcriptionWebSocket.ts:11-32 | The new state is `Started` and the log grows by `StartEffects`. |
| Transcription.TranscriptionService.SocketOpened | src/services/transcriptionWebSocket.ts:36-39 | The new state is `Opened`, and nothing is logged. |
| Transcription.TranscriptionService.MicSetUp | src/services/transcriptionWebSocket.ts:39-76 | The new state is `SetUp`. The promise resolves exactly when all four setup steps succeed. |
| Transcription.TranscriptionService.SocketClosed | src/services/transcriptionWebSocket.ts:56 | A socket closed by the other side is no longer OPEN and will never open; nothing else changes. |
| Transcription.TranscriptionService.AudioProcess | src/services/transcriptionWebSocket.ts:55-70 | While OPEN, one encoded frame (`Encodes`) is sent. Otherwise nothing is sent, and the state never changes. |
| Transcription.TranscriptionService.Message | src/services/transcriptionWebSocket.ts:28-32 | The text is delivered to the current callback if there is one. |
| Toolbar.FormatTime | src/components/DraggableToolbar.tsx:165-169 | The display is "MM:SS". Minutes take at least two digits and are never cut; a field longer than two digits has no leading zero. Seconds take two digits and are below 60. minutes·60 + seconds gives the time back. |
| Toolbar.ClampCoord | src/components/DraggableToolbar.tsx:60-62 | The coordinate is at least 10, and at most the bound when the bound is at least 10. A value in range is unchanged; a value below 10 becomes 10, and a value above a bound of at least 10 becomes the bound. |
| Toolbar.DragTarget | src/components/DraggableToolbar.tsx:47-62 | The toolbar lands at x ≥ 10 and y ≥ 10, and within innerWidth−70 and innerHeight−290 when the window leaves room. Inside those margins it follows the pointer minus the grab offset; past an edge it stops at that edge. |
| Toolbar.MoveSetsBothPositions | src/components/DraggableToolbar.tsx:64-67 | A drag move sets position and originalPosition to the same clamped target. A move outside a drag changes nothing. |
| Toolbar.AnimationBlocksInput | src/components/DraggableToolbar.tsx:29 | While animating, mouse-down, moves and the expand button change nothing. |
| Toolbar.ExpandToggleFlips | src/components/DraggableToolbar.tsx:100-113 | The expand button flips the panel and starts the animation. Two toggles with the animation in between restore it. |
| Toolbar.TimerInvariantPreserved | src/components/DraggableToolbar.tsx:116-162 | Every handler keeps the invariant: an interval runs exactly while recording and not paused. |
| Toolbar.TicksCountOnlyWhileRunning | src/components/DraggableToolbar.tsx:126-128 | The time advances exactly while recording and not paused. |
| Toolbar.RecordingToggleResets | src/components/DraggableToolbar.tsx:116-139 | Both paths flip recording and reset the time to 0 and pause to false. Start sets one interval; stop clears the running one. |
| Toolbar.PauseToggleBehaviour | src/components/DraggableToolbar.tsx:141-162 | Pause does nothing unless recording. Otherwise it flips the pause, keeps the time, and clears the interval or sets a new one. |
| Toolbar.PauseResume | src/components/DraggableToolbar.tsx:141-162 | Pause then resume leaves the recording running with the same time and a new interval. |
| Toolbar.FileDecision | src/components/DraggableToolbar.tsx:188-201 | An empty selection returns early. A first file over 200·1024·1024 bytes is refused. Otherwise that file is uploaded. |
| Toolbar.UploadLimitIsInclusive | src/components/DraggableToolbar.tsx:195-198 | Exactly 200 MiB is uploaded; one byte more is refused. |
| Toolbar.DraggableToolbar.constructor | src/components/DraggableToolbar.tsx:14-26 | The initial state is at (innerWidth − 80, 20), collapsed, not recording, time 0. |
| Toolbar.DraggableToolbar.HandleMouseDown | src/components/DraggableToolbar.tsx:28-41 | The new state is `MouseDown`: ignored while animating, else dragging with the offset taken from the toolbar's box. |
| Toolbar.DraggableToolbar.HandleMouseMove | src/components/DraggableToolbar.tsx:43-67 | The new state is `MouseMove`. |
| Toolbar.DraggableToolbar.HandleMouseUp | src/components/DraggableToolbar.tsx:69-72 | Dragging ends. |
| Toolbar.DraggableToolbar.HandleExpandToggle | src/components/DraggableToolbar.tsx:100-113 | The new state is `ExpandToggled`. |
| Toolbar.DraggableToolbar.OnAnimationDone | src/components/DraggableToolbar.tsx:107 | The animation flag is cleared. |
| Toolbar.DraggableToolbar.HandleRecordingToggle | src/components/DraggableToolbar.tsx:116-139 | The new state is `RecordingToggled`, and the interval log grows by the set or clear. |
| Toolbar.DraggableToolbar.HandlePauseToggle | src/components/DraggableToolbar.tsx:141-162 | The new state is `PauseToggled`, and the interval log grows accordingly. |
| Toolbar.DraggableToolbar.OnTick | src/components/DraggableToolbar.tsx:126-128 | One interval firing adds a second. |
| Toolbar.DraggableToolbar.Unmount | src/components/DraggableToolbar.tsx:171-178 | A running interval is cleared on unmount. |
| Toolbar.DraggableToolbar.HandleFileChange | src/components/DraggableToolbar.tsx:188-218 | An empty selection changes nothing. A file that is too large gets an error toast and no upload. Otherwise the file is uploaded and a success or failure toast follows. The input is cleared on both paths. |
| PatientViewer.FormatTime | src/components/VirtualAssistant.tsx:45-49 | The clock is "M:SS" with unpadded minutes and two-digit seconds below 60, and it reads back as the time. |
| PatientViewer.ListAnswerSelectsFirst | src/components/VirtualAssistant.tsx:21-25 | A `Table` of rows becomes the list. Its first row becomes the active patient, or the selection is kept when there are no rows. |
| PatientViewer.ListAnswer | src/components/VirtualAssistant.tsx:21-25 | An answer without a truthy `Table` changes neither list nor selection. A truthy `Table` becomes the list. The selection becomes `Table[0]` exactly when `Table.length > 0`, and otherwise is kept; for an array that is its first row. |
| PatientViewer.ObjectTableSelectsUndefined | src/components/VirtualAssistant.tsx:23-24 | An object `Table` {"length": 1} becomes the list and sets the selection to undefined. |
| Json.Element | src/components/VirtualAssistant.tsx:24 | `v[k]` is the k-th array item, the k-th character of a string, the property named by k of an object, and undefined for null, numbers and booleans. |
| Json.GreaterThanZero | src/components/VirtualAssistant.tsx:23 | `v > 0` is false for null, false and plain objects, true for true, and for a number is the number's comparison. |
| Json.NumberAndDigitsCompareAlike | src/components/VirtualAssistant.tsx:23 | A count compares with zero alike as a number and as its decimal string. |
| PatientViewer.VirtualAssistant.constructor | src/components/VirtualAssistant.tsx:7-11 | Nothing is loaded, and `isLoading` starts true. |
| PatientViewer.VirtualAssistant.BeginPatientFetch | src/components/VirtualAssistant.tsx:19-20 | Loading is switched on and the 2023 patient list is requested. |
| PatientViewer.VirtualAssistant.FinishPatientFetch | src/components/VirtualAssistant.tsx:21-27 | The list and selection follow `ListAnswer`, and loading is switched off whatever the answer. |
| PatientViewer.VirtualAssistant.BeginDetailsFetch | src/components/VirtualAssistant.tsx:32-35 | Only a truthy selection starts a fetch. That fetch switches loading on and asks for the selection's dictation. |
| PatientViewer.VirtualAssistant.DictationArrived | src/components/VirtualAssistant.tsx:36 | The SOAP notes of the same recording are requested next. |
| PatientViewer.VirtualAssistant.FinishDetailsFetch | src/components/VirtualAssistant.tsx:37-39 | Dictation and notes are stored, then loading is switched off. |
| PatientViewer.MountSequence | src/components/VirtualAssistant.tsx:17-29 | Over the mount, `isLoading` is set true then false, whatever the answer. |
| DevProxy.ReplaceAnchoredRoundTrip | vite.config.ts:23 | A path starting with the prefix starts with the replacement afterwards, and the reverse rewrite gives the path back, so only the prefix changed. |
| DevProxy.FirstMatch | vite.config.ts:10-39 | The chosen rule's context starts the path, and no earlier rule's does. |
| DevProxy.ApiRewriteIsIdentity | vite.config.ts:14 | The `/api` rewrite returns every path unchanged. |
| DevProxy.StripRemovesPrefixOnce | vite.config.ts:31 | A stripping rewrite removes a leading prefix once (a doubled prefix keeps one copy) and leaves other paths alone. |
| DevProxy.Forward | vite.config.ts:10-39 | A path is forwarded exactly when some context starts it. It goes to the first matching rule's target, with that rule's rewrite applied. |
| DevProxy.StrippedRoute | vite.config.ts:20-38 | A path under a stripping rule reaches its backend as the part after the prefix. |
| DevProxy.TranscriptionSocketRoute | src/services/transcriptionWebSocket.ts:24 | The transcription socket reaches the wss backend as "/ws". |
| DevProxy.UploadRoute | src/services/audioUploadApi.ts:10 | The upload reaches the audio backend as "/process_audio_upload". |
| DevProxy.TokenRoute | src/services/tokenService.ts:9 | The token request reaches port 444 as "/api/Customer/GetTokenAsyncNew?accountId=DemoScribe". |
| DevProxy.PrefixIsNotSegmentAware | vite.config.ts:20-23 | The match is not segment-aware: "/audio-apiX" is forwarded to the audio backend as "X". |

## Left out

- Rendering, styling, icons, tooltips and the popup geometry of the toolbar are not modelled. Layouts are modelled as `View` values and the toolbar as its state.
- These are not modelled: the network service wrappers (patient list, dictation, SOAP notes, EMR send, finalize, authentication and token requests, upload); the uploaded-notes store; `JSON.parse` of the stored notes; clipboard, PDF and toast plumbing. Answers and failures are parameters instead.
- `handleSectionCopy` is not modelled; only the `convertNoteToString` text it copies is. Neither are `handleSendToMaximeyes` and the finalize flow; only the `convertNoteForAPI` value they send is.
- Numbers in notes are integers, so floating-point note values and their `String` forms are not modelled.
- Pcm.Quantize: samples are mathematical reals, so NaN and infinities are out of scope.
- The sample rate (16000), buffer size (4096), `binaryType` and the page's protocol and host are not modelled; only the socket path is.
- NoteText.HighlightText: the highlight is matched literally and case-insensitively. A search term containing regular-expression metacharacters is out of scope, since there the source builds a different regular expression or throws.
- Case mapping is ASCII only, so `toLowerCase`/`toUpperCase` of non-ASCII letters is not modelled.
- An object's entries are taken as given, in `Object.entries` order and with distinct keys. This covers the posterior `otherProps` too: it re-inserts a subsequence of entries that are already in enumeration order, so its order is unchanged.
- EyeSections: the `__proto__` key is left out. Assigning through it changes an object's prototype.
- EyeSections: inherited names are modelled; property assignments on the inherited prototype members are not.
- Transcription: the `onmessage` handler of a socket that was replaced is not modelled, nor are deliveries from a socket that is not yet OPEN. The `onopen` handlers of replaced sockets are modelled.
- Transcription: a replaced socket that fails to connect, or is closed by the server, is not modelled; it simply never opens.
- Transcription: the `onerror` rejection and the outer `return false` path are not modelled. A failed setup is the `steps` parameter of `MicSetUp`.
- Transcription.TranscriptionService.AudioProcess requires a processor because the audio callback exists only once one has been created.
- Toolbar: several things are not modelled:
  - the `mousemove` listener's captured closure (the listeners are re-registered only when `isDragging` changes);
  - the exact delay of the animation frame;
  - the truthiness of interval handles (assumed non-zero, as browsers return them).
- Json.GreaterThanZero: a string counts as above zero only when it is plain decimal digits. Whitespace, signs, decimal points, exponents, hex and "Infinity" are not read, so such a `length` is taken as not above zero.
- EyeSections.ViewOf: only the object itself is checked for an own "hasOwnProperty" key. A nested value that would throw when rendered is not followed, because the layout stops at the first level.
- Toolbar.DraggableToolbar.HandleFileChange: the awaited upload is taken as one step. A second file chosen while an upload is pending, and toasts from two uploads interleaving, are not modelled.
- VirtualAssistant: the play/pause, consent and sidebar toggles and `progressPercentage` are not modelled.
- VirtualAssistant: overlapping fetches for two selections are not modelled (each fetch is modelled from start to finish in order). Neither is a rejected request, which would leave `isLoading` set.
- DevProxy: `changeOrigin`, `secure` and the WebSocket upgrade are not modelled, nor are regular-expression contexts starting with '^' (none are used).

## Findings

| source | as written | input that shows it | evidently intended | confidence | as-written member | corrected member |
|---|---|---|---|---|---|---|
| src/components/MedicalRecordView.tsx:167-170 | `if (!sections[sectionName])` on a plain `{}` also finds the members of Object.prototype. For the name "constructor" the row is never created, and the value is written onto `Object` itself. | the posterior-segment note {"constructor OD": "20/20"} | every assigned section gets its own row; here one row "constructor" with OD "20/20" | not executed | EyeSections.ConstructorRowDropped | EyeSections.ConstructorRowKept |
| src/services/transcriptionWebSocket.ts:36-118 | A stop drops a CONNECTING socket without closing it and does not cancel an `onopen` already waiting for the microphone. That handler then sets the stream, context, source and processor with no socket. They stay set, and the microphone stays on. A stop before another set-up releases them. If a new session opens first, its set-up overwrites them without releasing them, and no later stop can release them. | start, then stop before the open event or during `await getUserMedia`, then the open event and a successful set-up | the set-up gives up its handles unless its own socket is still the current OPEN one | not executed | Transcription.StopBeforeSetUpLeavesAudio | Transcription.GuardedStopBeforeSetUp |
