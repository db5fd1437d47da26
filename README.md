# Oppodcast, modelled in Dafny

Oppodcast is a small podcast studio. A Streamlit page (`Oppodcast.py`) stores the
Vodio credentials and queues episodes: each submission becomes a pair of files in
`inbox/`, the audio `<id>.mp3` and the job `<id>.json`. A worker (`worker.py`)
polls `inbox/`, uploads each job through the Vodio uploader, and files the pair
under `processed/` on success or `failed/` otherwise. Besides the queue, the studio
has a jingle palette (`jingle_palette.py`): named presets that map the 30 pads
A1..E6 to sound files from a shared pool, a grid editor for them, and a player.
It also has two video generators, which lay a cover image over an audio track:
a vertical short (`shorts_generator.py`) and a full YouTube video
(`youtube_generator.py`).

The job file's `status` is written once, as `"pending"`, and never updated. The
queue is three directories, and the model keeps it that way.

Modules:

- `Worker` (worker.dfy): the three directories are maps from file name to
  content.
  - `Process` is the declarative meaning of `process_job`.
  - The class `Spool` holds the directories and updates them in place.
    `ProcessJob` is proved equal to `Process`. `ProcessListing` and `Poll` are
    proved equal to `Batch`, one scan of the inbox. `Run` is the polling loop.
  - How worker.py:83,85 reaches the uploader is a `Binding` parameter of
    `Process`, `Batch` and every `Spool` method: `AsWritten` as the code stands
    (a TypeError before any upload, see Findings) or `Corrected`.
  - The uploader is an oracle parameter that answers Published, Refused
    (returned False) or Raised.
- `Studio` (studio.dfy): the credentials file as the page loads and saves it,
  the blocking check, and the submission handler. The handler writes into a
  `Spool`.
- `Jingles` (jingles.dfy): the pure logic of the palette:
  - the name sanitiser;
  - the preset listing;
  - load and save;
  - the selection fallback;
  - the pool filter;
  - the grid build and save, and the pads with their display name and MIME type.

  The class `JinglePalette` holds the presets directory and the session's
  selected preset.
- `Shorts`, `YouTube` (shorts.dfy, youtube.dfy, over render.dfy): each
  generator is modelled as a function that returns a render plan. The plan holds
  the canvas, the layers back to front, the audio excerpt and the output path.
- `Paths`, `Sorting`, `JsonDoc`, `Wrappers`: helpers.
  - `os.path.join`, `splitext`, `os.listdir` with an open order;
  - Python's string order and `list.sort`;
  - what `json.load` yields;
  - Option and Result.

## Model

| member | source | states |
|---|---|---|
| Worker.GetSecrets | worker.py:15-27 | credentials are returned exactly when the file is a JSON object with non-empty login and password, and they are those two values; a missing, unreadable or non-object file gives none |
| Worker.Attempt | worker.py:83-85 | as written the uploader is never reached and the attempt raises; corrected, the attempt is the uploader's own answer to the request |
| Worker.ProcessOutcomes | worker.py:46-114 | the job file leaves inbox/ on every outcome but NoCredentials and Crashed: for processed/ when archived, which only the corrected call can give, else for failed/; invalid JSON and missing credentials are recognised exactly; without credentials nothing changes |
| Worker.ProcessOnlyDrainsInbox | worker.py:46-114 | processing a job never adds or changes a file in inbox/; it deletes from processed/ only the job's own name, and only when it ends in a crash |
| Worker.InvalidJsonMovesOnlyTheJobFile | worker.py:48-54 | a job file that is not JSON moves alone to failed/; inbox/ loses only it, and processed/ is unchanged |
| Worker.NoCredentialsMovesNothing | worker.py:56-62 | with a readable job and no credentials, no directory changes |
| Worker.MissingAudioKeyCrashes | worker.py:64-69 | a job object without `mp3_file` raises outside the try, before anything has moved |
| Worker.MissingAudioFailsTheJobFile | worker.py:71-75 | when the named audio is a file name not in inbox/, the job file alone moves to failed/ |
| Worker.DirectoryAudioCrashes | worker.py:69-114 | an `mp3_file` of "", "." or ".." names a directory that exists: the upload is attempted, the job file moves to failed/, a successful upload also removes processed/<job>, and removing the directory raises out of `process_job` |
| Worker.CorrectedRoutesBothFiles | worker.py:79-114 | with the uploader called as it is declared, the job is archived iff the upload publishes; both files leave inbox/ and land together in processed/ on success or in failed/ otherwise, replacing same-named files, with the other directory untouched |
| Worker.AsWrittenNeverArchives | worker.py:83-85 | with the uploader called as written, no job is ever archived and processed/ never changes |
| Worker.RoutedJobLandsOnce | worker.py:46-114 | a readable, credentialed job naming an audio file other than itself and other than a directory leaves inbox/ and lands in exactly one of processed/ and failed/ |
| Worker.BatchStopsAtCrash | worker.py:130-132 | a scan reports at most one outcome per listed job; only the last can be a crash, and a scan cut short ends in a crash |
| Worker.BatchOnlyDrainsInbox | worker.py:127-132 | a whole scan never adds to inbox/; processed/ keeps every name when the scan does not crash, and every name that is not a listed job in any case |
| Worker.IsJobFile | worker.py:128 | a name is globbed exactly when it is a non-empty stem not starting with '.' followed by ".json" |
| Worker.NoCredentialsScanChangesNothing | worker.py:57-62 | without credentials a scan of readable jobs changes nothing, so the same jobs come back on every scan |
| Worker.Spool.constructor | worker.py:40-41 | creating the directories keeps what is already in them |
| Worker.Spool.RemoveIfExists | worker.py:94-95 | removes the name from one directory if present; the others are unchanged |
| Worker.Spool.Move | worker.py:97-98 | moving a file succeeds iff it exists; it then leaves the source and replaces any same-named target; otherwise nothing changes; other directories are untouched |
| Worker.Spool.Archive | worker.py:91-98 | both files replace their namesakes in processed/ and leave inbox/; when the job file is its own audio, the second move fails and only the job file has moved |
| Worker.Spool.FileAsFailed | worker.py:106-114 | the job file replaces its namesake in failed/, and so does the audio if it is still in inbox/; when the job file is gone, only its namesake in failed/ has been removed and the move fails |
| Worker.Spool.FailOnDirectory | worker.py:87-114 | with a directory as audio path: the job file replaces its namesake in failed/ and leaves inbox/, and processed/ loses the job's name iff the upload succeeded |
| Worker.Spool.ProcessJob | worker.py:46-114 | for either binding of the uploader call, the step-by-step moves and removals leave the directories and the outcome exactly as `Process` says |
| Worker.Spool.Glob | worker.py:128 | the listing holds every non-hidden `.json` name of inbox/ once, in an order left open |
| Worker.Spool.ProcessListing | worker.py:131-132 | processing the listed jobs one by one, stopping at an escaping exception, gives exactly the directories and outcomes of `Batch`, for either binding |
| Worker.Spool.Poll | worker.py:127-134 | one pass sleeps iff no job file is found, and otherwise processes exactly the globbed jobs as `Batch` does |
| Worker.Spool.Run | worker.py:126-137 | with a ghost trace of the directories between passes and of each pass's listing: every pass globs the inbox it starts from and leaves exactly what `Batch` over that listing leaves, `last` is the last pass's outcomes, no pass before the last crashes, and the loop stops early exactly when a pass ends in a crash, otherwise running every pass; inbox/ only shrinks, and processed/ keeps its names unless the worker crashed |
| Studio.LoadSecrets | Oppodcast.py:17-25 | a missing or non-JSON file gives empty login and password; a file that cannot be decoded as text raises; otherwise the parsed document as it is |
| Studio.MainFormReachable | Oppodcast.py:36-49 | the main form is shown only with a loaded object whose login and password are both present and non-empty; the fallback credentials never unblock it, nor does a load that raised |
| Studio.PageUnblockedIffWorkerHasCredentials | Oppodcast.py:45-49 | the page shows the main form exactly when the worker finds credentials in the same file |
| Studio.SaveSecrets | Oppodcast.py:27-31 | the file becomes an object with exactly the login and password keys, holding the given values |
| Studio.SavedCredentialsReachTheWorker | Oppodcast.py:27-31 | saved credentials are read back by the worker iff both are non-empty, and only then unblock the page |
| Studio.JobFilesDistinct | Oppodcast.py:73-89 | the audio file and the job file of one submission never share a name |
| Studio.QueuedJobIsScanned | Oppodcast.py:89-91 | the job file of a non-hidden id is one the worker's glob picks up |
| Studio.JobRecord | Oppodcast.py:80-87 | the record has exactly the six keys; `mp3_file` is the stored audio's name, `status` is "pending", and title and description are as submitted |
| Studio.Submit | Oppodcast.py:68-98 | a job is queued iff a file was uploaded and the title is non-empty; then inbox/ gains the audio and the job record under the same id; otherwise nothing is written and the error is returned |
| Studio.QueuedJobIsRouted | Oppodcast.py:68-91 | end to end: a queued job is uploaded with the submitted title, description and stored audio, and the pair leaves inbox/ for processed/ iff the call reaches the uploader (the corrected binding) and the upload publishes, else for failed/ |
| Sorting.Sort | jingle_palette.py:33 | the result is sorted in Python's string order and is a permutation of the input |
| Sorting.SortIndependentOfOrder | jingle_palette.py:60 | sorting any two orderings of the same names gives the same list |
| Paths.Join | worker.py:69 | an absolute name wins; a relative name is appended to the directory with one "/" between them, and with none added when the directory is empty or already ends in "/" |
| Paths.SplitExt | jingle_palette.py:189-191 | stem and extension concatenate back to the name; a non-empty extension is the suffix from the last '.', with a non-dot character before it; there is no extension exactly when every '.' of the name has only dots before it |
| Paths.ListDir | jingle_palette.py:27 | the listing holds each name of the directory exactly once |
| Jingles.KeepSafe | jingle_palette.py:46 | the kept characters are exactly the safe characters of the name, and a name of safe characters is kept whole |
| Jingles.KeepSafeFilters | jingle_palette.py:46 | one character is kept iff it is safe, and a name split in two is filtered piece by piece, so the safe characters are kept in their order |
| Jingles.Strip | jingle_palette.py:46 | the stripped name neither starts nor ends with a space, stays within the safe characters when its input was, and an unpadded name is unchanged |
| Jingles.StripCutsSpaces | jingle_palette.py:46 | the stripped name is the slice of the input between a prefix and a suffix made only of spaces |
| Jingles.StripEmptyIffBlank | jingle_palette.py:46-47 | stripping leaves nothing exactly when the text is all spaces |
| Jingles.SafeName | jingle_palette.py:46-47 | a name whose only safe characters are spaces is saved as "Unnamed"; any other name is saved under its safe characters with the surrounding spaces stripped |
| Jingles.SafeNameIsSafe | jingle_palette.py:44-48 | the saved name is non-empty, only alphanumerics, space, '-' and '_', has no leading or trailing space, and so holds no '.' or '/' |
| Jingles.SafeNameHasNoSeparator | jingle_palette.py:46-48 | a name made only of safe characters contains neither '.' nor '/', so it cannot leave the presets folder or carry an extension of its own |
| Jingles.SafeNameKeepsSafeNames | jingle_palette.py:46-47 | an already-safe name is kept exactly, so sanitising is idempotent |
| Jingles.DefaultNameIsSafe | jingle_palette.py:30-32 | "Défaut" is saved under its own name |
| Jingles.StemOfPresetFile | jingle_palette.py:27 | removing ".json" from a dot-free name's preset file gives the name back |
| Jingles.Stem | jingle_palette.py:27 | a file name is kept whole exactly when ".json" does not occur in it; otherwise at least one occurrence is cut out |
| Jingles.StemOfJsonName | jingle_palette.py:27 | a preset file whose only ".json" is its suffix gives back its whole name, dots included ("a.b.json" gives "a.b") |
| Jingles.PresetNamesSpec | jingle_palette.py:26-34 | the preset list is sorted, holds exactly the stems of the `.json` files, and does not depend on listing order |
| Jingles.SavedPresetIsListed | jingle_palette.py:26-50 | a preset saved under any name is listed under its sanitised name |
| Jingles.Load | jingle_palette.py:36-42 | a missing or non-JSON preset loads as `{}`; otherwise the saved document |
| Jingles.SaveThenLoad | jingle_palette.py:36-50 | loading after saving gives the saved slots under the sanitised name, and under the name itself when it was safe; other presets are unaffected |
| Jingles.Selected | jingle_palette.py:69-74 | the selection is always a listed preset: the session's own when it is listed, else the first |
| Jingles.SlotId | jingle_palette.py:137-145 | every row and column gives a pad id of A1..E6 |
| Jingles.SlotIdsAreTheGrid | jingle_palette.py:137-145 | pad ids and grid positions correspond one to one |
| Jingles.AudioPool | jingle_palette.py:59-60 | the pool is sorted |
| Jingles.AudioPoolSpec | jingle_palette.py:59-60 | the pool holds exactly the `.mp3`/`.wav` files of any letter case, and does not depend on listing order |
| Jingles.Cell | jingle_palette.py:145-148 | an unassigned slot and an assignment missing from the pool give an empty cell; an empty-string assignment and an assignment in the pool are shown as they are |
| Jingles.BuildGrid | jingle_palette.py:137-149 | the grid is five rows A..E of six cells, each the `Cell` of its pad |
| Jingles.SaveGrid | jingle_palette.py:160-169 | the saved slots are exactly the grid's non-empty cells, keyed by their pad ids, and nothing else |
| Jingles.Kept | jingle_palette.py:146-147 | the assignments an unedited grid keeps are pads of A1..E6 whose file is in the pool |
| Jingles.SaveOfUneditedGrid | jingle_palette.py:137-169 | saving the grid as built keeps exactly the shown assignments: pads outside A1..E6, empty names and files gone from the pool are dropped |
| Jingles.Display | jingle_palette.py:192 | the display name has at most 16 characters: the name if shorter than 16, else its first 14 and ".." |
| Jingles.Mime | jingle_palette.py:189-190 | audio/wav iff the lower-cased extension is ".wav", otherwise audio/mpeg |
| Jingles.SplitAtExtension | jingle_palette.py:189-191 | splitting `<stem><ext>`, with no '.' in the stem and exactly one leading '.' in the extension, gives back the stem and the extension |
| Jingles.PoolFileMime | jingle_palette.py:189-191 | a pool file `<stem>.wav` or `.WAV` plays as audio/wav and `.mp3`/`.MP3` as audio/mpeg, with `<stem>` as its name |
| Jingles.PadFor | jingle_palette.py:183-202 | a pad plays a sound iff its file is non-empty and in the pool; it then carries that file, the file's `splitext` stem as its name, the `Display` of that name (at most 16 characters) and the file's `Mime` type |
| Jingles.PadsMatchGrid | jingle_palette.py:146-147 | the player plays a pad exactly when the editor shows a filled cell for it |
| Jingles.BuildPads | jingle_palette.py:181-202 | the player has 30 pads in reading order A1..E6, each the `PadFor` of its slot |
| Jingles.JinglePalette.constructor | jingle_palette.py:7-16 | the presets directory is kept and nothing is selected |
| Jingles.JinglePalette.SavePreset | jingle_palette.py:44-50 | the slots are written under the sanitised name's file, replacing it; nothing else changes |
| Jingles.JinglePalette.LoadPreset | jingle_palette.py:36-42 | a missing or non-JSON preset file loads as `{}`; otherwise its saved document |
| Jingles.JinglePalette.DeletePreset | jingle_palette.py:52-55 | the preset's file is removed; a missing preset leaves the directory unchanged |
| Jingles.JinglePalette.GetPresets | jingle_palette.py:26-34 | the list is never empty: the sorted stems of the `.json` files, or, when there are none, ["Défaut"] after saving an empty "Défaut" |
| Jingles.JinglePalette.SyncSelection | jingle_palette.py:69-74 | the session's preset becomes `Selected`, so it is always a listed one |
| Jingles.JinglePalette.CreatePreset | jingle_palette.py:92-96 | a non-empty name is saved with no pads and selected as typed; an empty one changes nothing |
| Jingles.JinglePalette.DeleteActive | jingle_palette.py:99-105 | deleting is refused iff it is the only preset; otherwise its file goes and the first listed preset is selected |
| Jingles.CreatedSelectionSurvives | jingle_palette.py:92-96 | a created preset with a safe name is listed and stays selected on the next run |
| Shorts.CoverWidthIsTruncatedProduct | shorts_generator.py:38 | the sharp cover's width 918 is `int(1080 * 0.85)`, narrower than the canvas |
| Shorts.Clamp | shorts_generator.py:17-18 | the excerpt never runs past the audio, is never longer than asked, is cut only to end exactly at the audio's end, and is non-empty iff a positive duration starts inside the audio |
| Shorts.ClampIdempotent | shorts_generator.py:17-18 | clamping an already clamped duration changes nothing |
| Shorts.ShortPlan | shorts_generator.py:20-59 | for a non-empty excerpt: a 1080x1920 canvas with the (10,10,10) solid, the cover scaled to 1920 high and cropped to the canvas, then the 918-wide cover, all as long as the excerpt, written to the joined output path |
| Shorts.GenerateShort | shorts_generator.py:9-73 | a load error comes back unchanged; otherwise there is a plan iff a positive duration starts inside the audio, and it is `ShortPlan` of the clamped excerpt, which ends within the audio; an empty window is reported |
| Shorts.ShortExcerpt | shorts_generator.py:17-20 | the excerpt is the asked window when it fits, else it runs from the start to the audio's end |
| YouTube.Layout | youtube_generator.py:22-27 | only "square" gives a square canvas (1080x1080, cover 650 high); any other format gives 16:9 (1920x1080, cover 850 high); the cover is always lower than the canvas |
| YouTube.GenerateVideo | youtube_generator.py:14-55 | a load error comes back unchanged; otherwise black solid, backdrop 1.2 times the canvas height, then the cover, each lasting the whole audio, written to the joined output path |
| YouTube.CoverBetweenBackdropAndCanvas | youtube_generator.py:24-32 | the cover is lower than the canvas and the backdrop higher, in either format |

## Left out

- HTTP, Streamlit widgets, `st.session_state` plumbing and the HTML/CSS/JS player markup are not modelled. The pads keep only their decisions: slot, file, name, display name and MIME type.
- The base64 encoding of pad audio (jingle_palette.py:19-23) is a file read plus a library call.
- Uploading sounds to the pool and deleting them from disk (jingle_palette.py:114-132) are not modelled. These are file writes whose names go through a second sanitiser.
- The Vodio uploader's browser automation (vodio_uploader.py) is not modelled. In the worker it is an oracle answering Published, Refused or Raised.
- youtube_uploader.py, telegram_notifier.py, insta_generator.py, start_oppodcast.py and pages/Oppodcast_Palette.py are not part of this model.
- Sleeps and log lines are left out. The only trace of a sleep is `Poll`'s `slept` flag.
- The uuid and the creation time are parameters of `Studio.Submit` rather than fresh values.
- The page and the worker are separate processes that share inbox/. `Studio.Submit` and each job's processing are modelled as indivisible steps. In the source the page writes the audio file, then creates the job file empty and only then dumps the JSON into it (Oppodcast.py:76-91). A worker scan that lands in that window fails to parse the job file, moves it to failed/ and leaves the audio file in inbox/. That interleaving is not modelled.
- The secrets file is read once per scan. The worker rereads it for every job, so a change in the middle of a scan is not modelled.
- `Worker.Spool.Run` runs a given number of passes. The real loop runs until interrupted.
- JSON values are strings in the model. Non-string values of `title`, `description`, `mp3_file` or the credentials, and non-string pad assignments, are not modelled.
- `Jingles.JinglePalette.LoadPreset`: when the loaded preset is a JSON value other than an object, the grid's `.get` raises. The model's grid takes only an object's slots.
- File names are flat names in one directory. An `mp3_file` holding a path separator, which `os.path.join` would follow elsewhere, is not modelled. The values "", "." and "..", which name directories, are modelled.
- The model has no file-system errors other than a missing file. Permissions, a full disk and similar failures are left out.
- `Jingles.IsAlnum` covers `str.isalnum` up to U+00FF. Alphanumeric characters above U+00FF are treated as unsafe, so the sanitiser drops them where Python would keep them.
- `Jingles.SaveGrid` requires the grid the editor gives back: five rows labelled A..E of six cells. The fixed row count and the disabled label column of the data editor guarantee that shape.
- `Jingles.AudioPool` lower-cases only ASCII letters. No other character lower-cases to one of the letters of ".mp3" or ".wav", so the filter is unaffected.
- Moviepy's clip construction and encoding are left out: opacities, fps, codecs, threads and the file write. `write_videofile` errors are not modelled either. The plan stops at what is handed to the encoder.
- `Shorts.GenerateShort`: the start time must not be negative, because moviepy counts a negative start from the end of the clip. The source has no guard for a start at or past the end of the audio, or for a non-positive duration. The model reports such a window as `EmptyWindow` instead of following moviepy into it.
- Durations are exact reals. Floating-point rounding of `start + duration` and of `H * 1.2` is not modelled. `int(1080 * 0.85)` is 918 both exactly and in binary floating point.

## Findings

| source | as written | input that shows it | evidently intended | confidence | as-written member | corrected member |
|---|---|---|---|---|---|---|
| worker.py:83-85 | `VodioUploader(login, password, headless=True)` then `.upload(audio, title, description)`. The class takes only `headless` and names its method `upload_episode(login, password, path, title, description)` (vodio_uploader.py:6-9), so a TypeError is raised before any upload. | any job with credentials and its audio present: the job pair goes to failed/ and nothing is ever published | construct `VodioUploader(headless=True)` and call `upload_episode(login, password, audio_path, title, description)`. The job is archived when the upload succeeds. | high; not executed | Worker.AsWrittenNeverArchives | Worker.CorrectedRoutesBothFiles |
