# Audio labelling session, modelled in Dafny

The system is a desktop tool for labelling short audio clips. The operator loads one
file or a whole folder, plays a clip, may auto-transcribe it, ticks labels from a fixed
vocabulary of eight (Speech, Noise, Music, Happy, Sad, Angry, English, Telugu), types
start and end times, and presses "Save & Next". That appends one record and moves the
cursor to the next file. The saved records can then be exported as a text report.

This project models the in-memory part of that tool:

- `Session.AudioLabelingTool` is a class with the tool's own state. It holds the file
  list `audioFiles`, the cursor `currentIndex` and the append-only record list `data`.
  It also holds the fields the operator edits: `transcription`, `startTime`, `endTime`,
  and one 0/1 checkbox variable per label in `labelVars`. Its methods are the tool's
  actions: loading a file, loading a folder, save-and-advance, guarded and clamped
  navigation, checkbox toggling, and the play, waveform and transcribe guards. The
  invariant `Valid()` says `0 <= currentIndex <= |audioFiles|` and that there is exactly
  one 0/1 variable per label. Every method keeps it, except the as-written shortcut step
  below. Field-level `modifies` clauses say which fields an action may change.
- `PathNames` models `os.path.basename`, `os.path.join`, `str.endswith` and the folder
  filter that keeps only `.wav`/`.mp3` entries.
- `Ordering` models Python's string order and the ascending sort of a loaded folder.
- `Labels` holds the vocabulary, the digit-key table, toggling, the checked labels, and
  the `", "`-joined labels text with a parser that reads it back.
- `Report` models the text report. The PDF document is a sequence of emitted cells and
  line breaks: a title, then one numbered block per record.
- `Records` holds the saved record type.

Both `main.py` and `tool.py` define a class `AudioLabelingTool` with the same state,
the same `save_label`, and the same play, waveform and transcribe guards. The one
model class stands for both. Single-file loading and the guarded `next_audio` /
`previous_audio` come from `main.py`. Folder loading comes from `tool.py`
(`load_audio_files`, tool.py:93-99). In the source as written nothing calls that
method: no button and no key binding refers to it. The clamping navigation comes from
`utils/shortcuts_handler.py`, the code that `add_navigation_methods_to` installs.
Each saved record has five string fields (main.py:239-245); `Records.LabelRecord` is
that record.

Each input from the outside world is a parameter:

- A file-dialog selection is a string. The empty string means the dialog was
  cancelled, as the source's `if file:` / `if folder:` tests treat it.
- A directory listing is a sequence of entry names.
- The speech recogniser is a function from a path to its outcome.
- The success or failure of writing the PDF is an `IoStatus`.

The code has two navigation variants:

- main.py:270-276 guards each step. `next_audio` moves forward only while a later file
  exists, so it never moves from the "all files labeled" position `len`.
  `previous_audio` steps back whenever the cursor is above 0, so from `len` it moves to
  `len - 1` when at least one file is loaded.
- utils/shortcuts_handler.py:29-41 steps and then clamps. From `len` its `next_audio`
  jumps back to `len - 1`, and on an empty list it produces `-1` (see Findings).

The labels field is saved as the `", "`-join of the checked labels, in vocabulary
order (main.py:238, 242). `Labels.LabelsRoundTrip` shows that this string determines
which labels were checked.

## Model

| member | source | states |
|---|---|---|
| `Session.AudioLabelingTool.constructor` | main.py:119-121 | A new session has no files, cursor 0, no records, empty text fields and every checkbox at 0, so the invariant holds from the start. |
| `Session.AudioLabelingTool.LoadAudioFile` | main.py:214-219 | A selection replaces the file list with just that file and sets the cursor to 0. Cancelling changes nothing. Records and fields are outside its frame. |
| `Session.AudioLabelingTool.LoadAudioFiles` | tool.py:93-99 | A chosen folder replaces the list with the folder's `.wav`/`.mp3` entries joined to the folder, in ascending order, as a permutation of the filtered entries. A path is loaded iff it comes from such an entry. The cursor becomes 0 and records are untouched. Cancelling changes nothing. |
| `Session.AudioLabelingTool.PlayAudio` | main.py:221-224 | A path goes to the player iff the cursor is below the number of files, and it is the file under the cursor. |
| `Session.AudioLabelingTool.PlotWaveform` | main.py:226-228 | A path goes to the plotter iff the cursor is below the number of files, and it is the file under the cursor. |
| `Session.AudioLabelingTool.AutoTranscribe` | main.py:230-234 | With a current file, the whole transcription field is replaced by the recogniser's text for that file (tool.py:110-114 is the same). Otherwise the field is untouched. Nothing else may change. |
| `Session.TranscriptText` | main.py:34-45 | A recognised text is used as is. An unintelligible file gives "[Unintelligible]". Every failure outcome gives a bracketed message. |
| `Session.AudioLabelingTool.SaveLabel` | main.py:236-254 | With the cursor on a file, it appends exactly one record and keeps earlier records. The record has the file's basename, the typed transcription and times, and the labels text of the checked boxes. The cursor advances by one, the text fields become empty and every checkbox becomes 0. The "all files labeled" signal fires iff the cursor reaches the end. Past the end it changes nothing and gives no signal. tool.py:116-134 is identical. |
| `Session.AudioLabelingTool.ClearLabelVars` | main.py:250-251 | The reset loop leaves every label variable at 0 and keeps the set of variables. |
| `Session.SaveUntilDone` | main.py:252-254 | Saving until the end appends one record per remaining file, in file order, each named after the basename of its file. The cursor ends at the number of files, and the completion signal fires exactly once if any file remained. From a new session with N loaded files this gives cursor N and N records. |
| `Session.AudioLabelingTool.ToggleLabel` | utils/shortcuts_handler.py:24-27 | The checkbox variable of a known label flips between 0 and 1 (main.py:107-110 is the same). An unknown label changes nothing. Only `labelVars` may change. |
| `Session.AudioLabelingTool.PressLabelKey` | utils/shortcuts_handler.py:21-22 | A digit key in the table toggles the label it is bound to. Any other key changes nothing. |
| `Session.AudioLabelingTool.NextAudio` | main.py:270-272 | The cursor moves forward by one only when a later file exists. Only the cursor may change. |
| `Session.AudioLabelingTool.PreviousAudio` | main.py:274-276 | The cursor moves back by one only when it is above 0. Only the cursor may change. |
| `Session.AudioLabelingTool.ShortcutNextAudioAsWritten` | utils/shortcuts_handler.py:30-33 | As written, the new cursor is `min(cursor + 1, len - 1)`. The invariant survives iff at least one file is loaded. |
| `Session.AudioLabelingTool.ShortcutNextAudio` | utils/shortcuts_handler.py:30-33 | The corrected step clamps the cursor into `0..len-1`, or to 0 when the list is empty, and keeps the invariant. Only the cursor may change. |
| `Session.AudioLabelingTool.ShortcutPreviousAudio` | utils/shortcuts_handler.py:35-38 | The new cursor is `max(cursor - 1, 0)`, so it never goes below 0. Only the cursor may change. |
| `Session.AudioLabelingTool.ExportPdf` | tool.py:142-144 | Exporting writes the report of exactly the saved records to `output/report.pdf`, or reports the caught failure. |
| `Session.GuardedNext` | main.py:270-272 | The cursor advances by one exactly when a later file exists; otherwise it stays. |
| `Session.GuardedPrevious` | main.py:274-276 | The cursor steps back by one exactly when it is above 0; otherwise it stays. |
| `Session.ClampedNextAsWritten` | utils/shortcuts_handler.py:30-33 | The new cursor is the smaller of `cursor + 1` and `len - 1`. |
| `Session.ClampedNext` | utils/shortcuts_handler.py:30-33 | The corrected cursor is the larger of 0 and the as-written result, so it is never negative. |
| `Session.ClampedPrevious` | utils/shortcuts_handler.py:35-38 | The new cursor is the larger of `cursor - 1` and 0. |
| `Session.NavigationInRange` | main.py:270-276 | The guarded steps of main.py:270-276, the corrected clamping step `ClampedNext` and the shortcut handler's `previous_audio` (utils/shortcuts_handler.py:29-41) keep the cursor within `0..len`. The as-written clamping `next_audio` does not: see `Session.ClampedNextAsWrittenLeavesRange`. |
| `Session.NavigationStaysOnFiles` | utils/shortcuts_handler.py:29-41 | Navigating from a file lands on a file, never on the "all files labeled" position. Forward at the last file and back at the first file leave the cursor unchanged. |
| `Session.NavigationRoundTrip` | main.py:270-276 | Forward then back, or back then forward, returns to the same file whenever the first step moved. |
| `Session.ClampedNextAsWrittenLeavesRange` | utils/shortcuts_handler.py:30-33 | On an empty list the as-written step yields -1. That is below 0, yet it passes the play guard `cursor < len`. |
| `Session.ClampedNextMatchesAsWritten` | utils/shortcuts_handler.py:30-33 | With at least one file loaded, the corrected step equals the as-written one. |
| `Session.DirectoryBasenames` | tool.py:96-97 | Every loaded path of a folder has an audio entry of the listing as its basename. That basename is what saving records. |
| `PathNames.EndsWith` | tool.py:96 | Every string ends with the empty suffix. A string that ends with a non-empty suffix is at least as long and shares its last character. |
| `PathNames.IsAudioName` | tool.py:96 | An accepted name ends in a four-character extension that starts with '.'. |
| `PathNames.Basename` | main.py:240 | The basename holds no '/'. |
| `PathNames.BasenameIsLastComponent` | main.py:240 | The basename is the suffix of the path after its last '/', or the whole path when it has none. |
| `PathNames.Join` | tool.py:96 | The joined path ends with the entry name. An absolute name replaces the folder. A relative name is appended to the folder, with one '/' inserted exactly when the folder is non-empty and does not already end in '/'. |
| `PathNames.BasenameOfJoin` | tool.py:96 | The basename of a folder joined with a slash-free entry is that entry. |
| `PathNames.AudioPaths` | tool.py:96 | Exactly the entries ending in `.wav` or `.mp3` (case-sensitive) appear, each joined to the folder, and no other path does. |
| `Ordering.Le` | tool.py:97 | A prefix is ordered before the longer string. Where two strings differ in their first character, that character decides. |
| `Ordering.Sort` | tool.py:97 | Sorting keeps the number of paths. |
| `Ordering.LeTotal` | tool.py:97 | Python's string order relates every pair of strings. |
| `Ordering.LeAntisymmetric` | tool.py:97 | Two strings ordered both ways are equal. |
| `Ordering.LeTransitive` | tool.py:97 | Python's string order is transitive. |
| `Ordering.SortSorted` | tool.py:97 | The sorted file list is ascending. |
| `Ordering.SortPermutation` | tool.py:97 | The sorted file list is a permutation of its input. |
| `Ordering.SortedUnique` | tool.py:97 | Two ascending arrangements of the same paths are equal, so the model's sort gives exactly what `list.sort()` gives. |
| `Ordering.SortSpec` | tool.py:97 | The sort is ascending, is a permutation, and is the only sequence with both properties. |
| `Labels.Unchecked` | main.py:160-167 | The initial checkbox state is well formed: one variable per label, each 0. |
| `Labels.Flip` | utils/shortcuts_handler.py:27 | A flipped variable is 0 or 1, and differs from its old 0/1 value. |
| `Labels.Toggle` | utils/shortcuts_handler.py:24-27 | Toggling keeps the set of labels and every other label's value. It flips the named label, or changes nothing when the label has no variable. |
| `Labels.ToggleWellFormed` | utils/shortcuts_handler.py:24-27 | Toggling keeps the checkbox variables well formed. |
| `Labels.ToggleTwice` | utils/shortcuts_handler.py:24-27 | Toggling the same label twice restores every checkbox. |
| `Labels.LabelKeysDigits` | utils/shortcuts_handler.py:10-19 | The shortcut table's keys are exactly '1' to '8'. |
| `Labels.LabelKeysFollowVocabulary` | utils/shortcuts_handler.py:10-19 | Digit key k selects the k-th checkbox label, in the order of main.py:161. |
| `Labels.LabelKeysOneToOne` | utils/shortcuts_handler.py:10-19 | No two digit keys select the same label. |
| `Labels.LabelKeysCoverVocabulary` | utils/shortcuts_handler.py:10-19 | The keys select exactly the eight labels of the vocabulary. |
| `Labels.Checked` | main.py:238 | A label is among the checked labels iff its variable is 1. |
| `Labels.CheckedInOrder` | main.py:161-167 | The checked labels keep the creation order of the checkboxes, the vocabulary order, and repeat none. |
| `Labels.VocabularyWords` | main.py:161 | No label is empty or contains a comma. |
| `Labels.JoinWith` | main.py:242 | Joining nothing gives the empty text. Otherwise the text starts with the first part and is at least as long as one separator per gap between parts. |
| `Labels.LabelsText` | main.py:238-242 | The labels text is empty exactly when no label is checked. |
| `Labels.SplitJoin` | main.py:242 | Splitting a `", "`-join of comma-free parts at `", "` gives the parts back. |
| `Labels.LabelsRoundTrip` | main.py:238-242 | Reading the saved labels text back gives exactly the checked labels, in vocabulary order. No checked label gives the empty text. |
| `Report.NatToString` | utils/pdf_generator.py:15-16 | A block number is printed as decimal digits without a leading zero. |
| `Report.ParseNatToString` | utils/pdf_generator.py:15-16 | The printed block number reads back as the number. |
| `Report.NatToStringInjective` | utils/pdf_generator.py:15-16 | Distinct block numbers print differently. |
| `Report.EntryText` | utils/pdf_generator.py:16-20 | The f-string of one block: number, file, transcription, labels, start and end time. Its properties are stated by the two lemmas below. |
| `Report.EntryNumbered` | utils/pdf_generator.py:16 | Block i starts with the number i, which reads back as i, followed by a dot. |
| `Report.EntryEndsWithEndTime` | utils/pdf_generator.py:20 | Block i ends with the line giving the record's end time in seconds. |
| `Report.Blocks` | utils/pdf_generator.py:15-22 | The records give exactly two operations each, a block and its gap. |
| `Report.ReportOps` | utils/pdf_generator.py:12-22 | The report is the title and its gap followed by two operations per record. |
| `Report.ReportLayout` | utils/pdf_generator.py:12-22 | The report opens with the centred title "Audio Labeling Report" and a gap. Then there is exactly one block and gap per record, in record order, and block k describes record k with the number k + 1. |
| `Report.ReportOfNothing` | utils/pdf_generator.py:12-15 | Empty data yields only the title and its gap. |
| `Report.ReportAppend` | utils/pdf_generator.py:15-22 | One more saved record adds exactly one block, numbered after the others. Earlier blocks are unchanged. |
| `Report.GeneratePdf` | utils/pdf_generator.py:6-26 | The enumerate loop emits exactly the report of the data. A failure of the file system or of the PDF library is caught and turned into the printed message "Error generating PDF: ...". Nothing is raised to the caller. |

## Left out

- The tkinter user interface: building widgets, layout, the event loop and the
  `messagebox` pop-ups (main.py:126-212, tool.py:32-91). Field contents are plain
  strings and ints. The "Done" pop-up is the `allLabeled` result of `SaveLabel`. The
  "Loaded" pop-ups are not modelled. Key bindings are modelled only for the digit keys
  (`PressLabelKey`).
- Playback: pygame runs on a fire-and-forget thread (concurrency and a foreign call).
  `PlayAudio` returns the path that would be handed to the player.
- Waveform rendering (librosa, matplotlib, image files). `PlotWaveform` returns the
  path that would be plotted.
- Speech recognition: it is a hosted service. It is a parameter function giving an
  outcome per path, and only the outcome-to-text mapping of main.py:34-45 is modelled.
  The copy in `utils/transcription_ai.py` is the same.
- MySQL upload (`utils/db_upload.py`, main.py:64-96): a database client. The call at
  main.py:66 is also malformed.
- CSV export (main.py:256-260, tool.py:136-140): the serialisation is done entirely by
  pandas.
- The file system and dialogs: `os.listdir`, `os.makedirs`, `askopenfilename`,
  `askdirectory`. Selections and listings are parameters. Failures to write the report
  are the `IoStatus` parameter.
- A dialog that returns something other than a string on cancel: it is modelled as
  the empty string.
- FPDF specifics: page setup (`add_page`, `set_font`), line wrapping, pagination, the
  bytes of the PDF file, and the library's refusal of characters outside its encoding.
  That refusal falls under `IoFailed`.
- LoadAudioFiles: the in-place `list.sort()` is a library routine (Timsort). It is
  modelled by a functional insertion sort that gives the same result
  (`Ordering.SortedUnique`). The in-place update of the list object and aliasing are
  not modelled.
- Indexing with the as-written cursor of -1: it arises only on an empty file list, where
  `self.audio_files[-1]` (main.py:223, 228, 232, 240) raises IndexError. That is shown
  only by `Session.ClampedNextAsWrittenLeavesRange`, not as a step of the class.
- Checkbox variables holding values other than 0 or 1: the session invariant excludes
  them, since only the code and the checkboxes set them, and only to 0 or 1.
- Defects in tool.py that are not modelled as behaviour:
  - tool.py:36 passes `command=self.load_audio_file`, but tool.py's class defines only
    `load_audio_files` (tool.py:93). Building the tool.py interface therefore fails
    with AttributeError at line 36, before the button exists; line 37 would fail too,
    as it uses `self.load_button`, which is never set.
  - `load_audio_files` has no caller: no button and no key binding uses it.
  - tool.py defines no `next_audio`/`previous_audio`, although `bind_shortcuts` binds
    keys to them.
  - Nothing in main.py, tool.py or utils/ calls `add_navigation_methods_to`. The model still gives
    its two closures as methods.
- Session.AudioLabelingTool.ExportPdf: models tool.py's `export_pdf`, which calls the
  catching `generate_pdf` of `utils/pdf_generator.py`. main.py:262-264 calls main.py's
  own `generate_pdf` (main.py:47-62). That copy has the same layout but no `try`, so there a failure propagates
  out of `export_pdf` and no message is printed; that path is not modelled.
- Report.GeneratePdf: `os.makedirs(os.path.dirname(filename))` raises for a file name
  without '/', since its directory name is empty, so the source always takes the
  caught path there. The model lets `IoOk` write any file name; both callers pass
  "output/report.pdf".

## Findings

| source | as written | input that shows it | evidently intended | confidence | as-written member | corrected member |
|---|---|---|---|---|---|---|
| utils/shortcuts_handler.py:30-33 | `next_audio` adds one to the cursor, then clamps it only from above, to `len(audio_files) - 1`. | An empty file list with cursor 0 gives cursor -1. The play, waveform and transcribe guards (`-1 < 0`) then pass and index an empty list. | The cursor is clamped into `0..len-1`, and stays at 0 when no file is loaded, so `0 <= cursor <= len` holds. | not executed; medium, because nothing in main.py, tool.py or utils/ installs the closure | `Session.AudioLabelingTool.ShortcutNextAudioAsWritten` | `Session.AudioLabelingTool.ShortcutNextAudio` |
