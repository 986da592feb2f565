# Voice Studio route handlers in Dafny

This project models the two server routes of Voice Studio. It covers the file-system and
child-process steps they take, and it proves what the routes promise about their answers and
about what they leave on disk.

- **`/api/local-tts` POST** (`LocalTts`) synthesizes speech in a cloned voice:
  1. It checks the text and makes `storage/outputs`.
  2. It makes a per-request workspace `<tmp>/xtts-<uuid>`.
  3. It obtains `reference.wav` inside the workspace. With a `referenceId`, it runs `cp` from
     `storage/references`. Otherwise it writes the uploaded file and runs ffmpeg.
  4. It runs the XTTS Python script, writing `storage/outputs/out_<now>.wav`, and answers with
     that file's bytes.
  5. A `finally` clause always removes the workspace.
- **`/api/reference` POST** (`Reference.Post`) stores an upload:
  1. It writes the upload to `storage/references/<id>.input`.
  2. It transcodes that file with ffmpeg into `<id>.wav`.
  3. It deletes the `.input` file and answers `{ id, filename, path }`.
- **`/api/reference` GET** (`Reference.Get`) lists the `.wav` names in `storage/references`,
  newest modification time first.

## How the model is built

- **File system.** `FileStore.Store` is a class whose one field, `tree`, maps paths (sequences of
  components) to nodes. A node is a directory or a file with bytes, and each node has an mtime.
  - `mkdir -p`, `writeFile`, `readFile`, `stat`, `rm -rf` and `readdir` are methods on the class.
  - Each method is tied to a pure function (`MakeDirs`, `WriteAt`, `ReadAt`, `StatAt`,
    `RemoveTree`, `ListDir`).
  - Every method keeps the tree well formed: the root is a directory and every node's parent is
    a directory.
  - Failures carry Node's error text, such as `ENOENT: no such file or directory, open '<path>'`.
    Reading a directory fails with `EISDIR: illegal operation on a directory, read`, which names
    no path, as in Node.
- **Child processes.** A child's behaviour is a parameter of type `ProcessOutcome`:
  - either it could not be spawned (an error message),
  - or it exited with a code (`null` for a signal), the stderr chunks it wrote, and the bytes it
    left at its destination when it exited 0. They are written only when the destination can be
    written: its parent is a directory and it is not a directory itself.
  - `ProcessRunner.Run` is the `run` helper that both route files define, line for line the same.
    It succeeds exactly on exit code 0. Otherwise it fails with `"<cmd> exited <code>\n<stderr>"`,
    or with the spawn error.
- **Handlers.** Each handler is an imperative method that mutates the `Store`. Each POST handler is
  proved equal to a pure specification function: `LocalTts.Synthesize` and `Reference.Save`.
  That function returns the response, the child invocations in order, and the final tree. The
  lemmas state the route's properties on this function.
- **GET.** `Reference.Get`:
  - filters the directory listing to `.wav` names,
  - stats each one into a fresh array,
  - sorts the array in place (an insertion sort),
  - answers the names.
  Its contract is `IsListing`: every `.wav` entry of the directory exactly once, no other name,
  and non-increasing mtimes.

Three behaviours of the handlers worth knowing:

- A reference POST whose ffmpeg run fails leaves `<id>.input` on disk. The `rm` on line 67 is
  reached only after a successful conversion. `Reference.StagingKeptOnFailure` states this.
- A synthesis request that carries both a `referenceId` and a file does not fail. The
  `referenceId` wins and the file is ignored (`LocalTts.ReferenceIdWins`).
- An unknown `referenceId` has no separate check. It surfaces as `cp`'s failure: a 500 with
  `cp exited <code>` and cp's stderr.

## Model

| member | source | states |
|---|---|---|
| ProcessRunner.Run | app/api/local-tts/route.ts:14-28 | `run` resolves exactly when the child exits with code 0; a spawn error rejects with that error; any other exit (including `null`) rejects with `cmd + " exited " + code + "\n" + stderr`, where stderr is every chunk in arrival order |
| ProcessRunner.Concat | app/api/local-tts/route.ts:18-19 | the collected stderr is empty when no chunk arrived and otherwise starts with the first chunk; `ChunkVerbatim` places every later chunk |
| ProcessRunner.ExitMessage | app/api/local-tts/route.ts:25 | the rejection text starts with `"<cmd> exited "` and ends with `"\n" + stderr` |
| ProcessRunner.RunOutcome | app/api/local-tts/route.ts:22-26 | the promise resolves exactly on exit code 0, rejects with the spawn error, and otherwise rejects with the exit message over all stderr chunks |
| ProcessRunner.Effect | app/api/local-tts/route.ts:100 | a child changes at most its destination: on exit 0, when the destination can be written (its parent is a directory and it is not one), it holds the child's output; every other path is untouched |
| ProcessRunner.ChunkVerbatim | app/api/reference/route.ts:16-17 | every stderr chunk appears verbatim, at its arrival position, in the text carried by the error |
| ProcessRunner.ExitMessageShape | app/api/reference/route.ts:20-24 | the rejection message starts with `"<cmd> exited "`, ends with `"\n" + stderr`, and has `null` in the middle exactly when the exit code is null |
| ProcessRunner.Exec | app/api/reference/route.ts:50-64 | running a child records its outcome as `run` does and changes the file system only by the child's output at its destination, and only on exit 0 |
| ProcessRunner.EffectCreatesDestination | app/api/reference/route.ts:50-64 | a child that exits 0 leaves its output file at the destination when the destination can be written (its parent is a directory and it is not one) |
| ProcessRunner.FailedChildChangesNothing | app/api/local-tts/route.ts:22-26 | a child that fails to spawn or exits non-zero leaves the file system as it was |
| Api.FieldOr | app/api/local-tts/route.ts:44-48 | a field read with a fallback (`text`, `lang`, `referenceId`): a present non-empty field gives its value, an absent or empty one the fallback, so `lang` is never empty |
| Api.CaughtError | app/api/reference/route.ts:74-79 | the `catch` answers status 500 with the thrown message, or "Server error" when that message is empty; the error text is never empty |
| FileStore.MakeDirs | app/api/reference/route.ts:39 | `mkdir(p, { recursive: true })` succeeds leaving `p` a directory, keeps every existing entry and adds only ancestors of `p` as directories; on failure some ancestor of `p` (or `p`) is a file |
| FileStore.MakeDirsFails | app/api/local-tts/route.ts:53 | in a well-formed tree, recursive mkdir fails exactly when `p` or one of its ancestors is a regular file |
| FileStore.AncestorsAreDirs | app/api/local-tts/route.ts:56 | in a well-formed tree every ancestor of an existing path is a directory, which is why recursive mkdir of an existing directory succeeds |
| FileStore.MakeDirsWellFormed | app/api/local-tts/route.ts:56 | recursive mkdir keeps the tree well formed |
| FileStore.WriteAt | app/api/reference/route.ts:47 | `writeFile` succeeds exactly when the parent is a directory and the target is not one, and then replaces only the target with the new bytes |
| FileStore.WriteAtWellFormed | app/api/local-tts/route.ts:70 | writeFile keeps the tree well formed |
| FileStore.ReadAt | app/api/local-tts/route.ts:102 | `readFile` succeeds exactly on a regular file and returns its bytes; on a directory it fails with `EISDIR: illegal operation on a directory, read`, without a path |
| FileStore.StatAt | app/api/reference/route.ts:95 | `stat` succeeds exactly on an existing path and reports its mtime |
| FileStore.RemoveTree | app/api/local-tts/route.ts:118 | `rm(p, { recursive: true, force: true })` removes `p` and everything below it, keeps everything else unchanged, and is no error when `p` is missing |
| FileStore.RemoveTreeWellFormed | app/api/local-tts/route.ts:118 | removing a non-root subtree keeps the tree well formed |
| FileStore.ChildNames | app/api/reference/route.ts:89 | the names directly inside a directory are exactly the `n` for which `dir/n` exists |
| FileStore.ListDir | app/api/reference/route.ts:89 | `readdir` succeeds exactly on a directory and yields its child names |
| FileStore.Store.Mkdir | app/api/reference/route.ts:39 | the in-place mkdir does what `MakeDirs` says and keeps the store well formed |
| FileStore.Store.WriteFile | app/api/reference/route.ts:47 | the in-place writeFile does what `WriteAt` says and keeps the store well formed |
| FileStore.Store.ReadFile | app/api/local-tts/route.ts:102 | reading a file returns its bytes and fails on a missing path or a directory |
| FileStore.Store.Stat | app/api/reference/route.ts:95 | stat returns the mtime of an existing path and fails on a missing one |
| FileStore.Store.Rm | app/api/reference/route.ts:67 | after `rm` nothing at or below the path remains and the rest of the tree is untouched |
| FileStore.Store.Readdir | app/api/reference/route.ts:89 | `readdir` fails exactly on a non-directory and otherwise lists every entry name exactly once, in an unspecified order |
| Text.TrimStart | app/api/local-tts/route.ts:50 | drops exactly the leading ECMAScript whitespace |
| Text.TrimEnd | app/api/local-tts/route.ts:50 | drops exactly the trailing ECMAScript whitespace |
| Text.Trim | app/api/local-tts/route.ts:50 | `text.trim()` is empty exactly when the text is empty or all whitespace (the `!text.trim()` test), and otherwise starts and ends with a non-whitespace character |
| Text.TrimIsInnerSlice | app/api/local-tts/route.ts:50 | `trim()` is one contiguous slice of the input, with only whitespace cut away before and after it |
| Text.EndsWith | app/api/reference/route.ts:90 | `f.endsWith(".wav")` holds exactly when the name is some prefix followed by ".wav" |
| Text.NatToString | app/api/local-tts/route.ts:94 | the decimal rendering of `Date.now()` is a non-empty digit string with no leading zero |
| Text.DigitsRoundTrip | app/api/local-tts/route.ts:94 | reading back the decimal rendering gives the number again |
| Text.NatToStringInjective | app/api/local-tts/route.ts:94 | distinct numbers render differently |
| Text.IntToString | app/api/local-tts/route.ts:25 | the rendering of an exit code is non-empty and starts with '-' exactly when the code is negative |
| Text.AppendedSuffix | app/api/reference/route.ts:90 | a name built as `s + ".wav"` passes `endsWith(".wav")`, and passes `endsWith` of a same-length suffix only for that suffix |
| LocalTts.WorkspaceDir | app/api/local-tts/route.ts:55 | the workspace is one component `xtts-<uuid>` directly inside the temporary directory |
| LocalTts.OutputName | app/api/local-tts/route.ts:94 | the output name is `out_`, then the decimal digits of `Date.now()`, then `.wav` |
| LocalTts.PythonCmd | app/api/local-tts/route.ts:97-98 | a non-empty `XTTS_PYTHON` names the interpreter; otherwise it is `<cwd>/.venv/bin/python` |
| LocalTts.TrySpec | app/api/local-tts/route.ts:41-56 | the start of the `try` block: `tmpDir` is only ever `<tmp>/xtts-<uuid>`; while it is unset no child runs and the tree is unchanged; at most two children run |
| LocalTts.ResolveSpec | app/api/local-tts/route.ts:58-92 | reference resolution keeps `tmpDir` set to the workspace and runs at most two children |
| LocalTts.GenerateSpec | app/api/local-tts/route.ts:94-110 | generation appends exactly one child (the model) to those already run, and a result it returns is a 200 with audio |
| LocalTts.Synthesize | app/api/local-tts/route.ts:38-121 | the whole handler: a form that cannot be parsed answers the caught error with no child run and nothing changed, and at most two children ever run |
| LocalTts.TryBody | app/api/local-tts/route.ts:41-110 | the `try` block, run in place on the store, produces the result, child calls and tree of `TrySpec`, and assigns `tmpDir` only to `<tmp>/xtts-<uuid>` |
| LocalTts.Post | app/api/local-tts/route.ts:38-121 | the handler with its `catch` and `finally` produces exactly `Synthesize`; an assigned workspace is gone afterwards, and an unassigned one means the store is untouched |
| LocalTts.TryFacts | app/api/local-tts/route.ts:41-110 | how the `try` block ends: a 400 before any mkdir, a mkdir failure, or the resolve and generate stages with the workspace assigned |
| LocalTts.TryOutline | app/api/local-tts/route.ts:41-110 | summary of every outcome of the `try` block: calls made, statuses, and the output file on success |
| LocalTts.ResolveFacts | app/api/local-tts/route.ts:58-92 | reference resolution first copies the stored file when `referenceId` is set; otherwise, once a child ran, `<workspace>/input` holds the uploaded bytes and ffmpeg converted it; with neither it answers 400 with no child run |
| LocalTts.GenerateFacts | app/api/local-tts/route.ts:94-110 | generation runs the model once with `[script, reference.wav, text, lang or "en", OUT_DIR/out_<now>.wav]`; a model failure throws run's message, and a success answers the bytes of that output file |
| LocalTts.BlankTextRejected | app/api/local-tts/route.ts:44-51 | an absent, empty or whitespace-only text answers 400 "Missing text" with no directory made and no child run |
| LocalTts.WorkspaceRemoved | app/api/local-tts/route.ts:116-119 | once the workspace name was assigned, nothing at or below it survives the request, whatever the outcome; before that point the request changes nothing |
| LocalTts.FreshWorkspaceLeavesNothing | app/api/local-tts/route.ts:55-56 | with a workspace name not yet in use, the request leaves no trace under it |
| LocalTts.ResolveIgnoresUpload | app/api/local-tts/route.ts:61-67 | with a non-empty `referenceId` the resolve stage does not depend on the uploaded file |
| LocalTts.ReferenceIdWins | app/api/local-tts/route.ts:61-67 | with a non-empty `referenceId` the whole request is the same whatever file is uploaded, and its first child is `cp <REF_DIR>/<referenceId> <workspace>/reference.wav` |
| LocalTts.MissingReferenceRejected | app/api/local-tts/route.ts:87-92 | neither a reference id nor a file answers 400 "Missing file or referenceId" with no child run, and the workspace is still removed |
| LocalTts.OutDirOutsideWorkspace | app/api/local-tts/route.ts:53-55 | the output directory lies outside the workspace (given the working directory is not inside it) |
| LocalTts.OutputOutsideWorkspace | app/api/local-tts/route.ts:94-95 | `OUT_DIR/out_<now>.wav` lies outside the workspace, so the cleanup never deletes the generated audio |
| LocalTts.SuccessfulSynthesis | app/api/local-tts/route.ts:94-110 | a 200 ran exactly two children, the model with `[script, reference.wav, text, lang or "en", outPath]`, and answers the bytes of `out_<now>.wav`, which still exists, with Content-Type audio/wav, Cache-Control no-store and X-Output-File |
| LocalTts.ProcessFailureSurfaces | app/api/local-tts/route.ts:111-115 | a failing cp, ffmpeg or model child ends the request with 500 carrying `"<cmd> exited <code>\n<stderr>"` or the spawn error, and no later child runs |
| LocalTts.ResponseKinds | app/api/local-tts/route.ts:38-121 | the handler answers 200 with audio, 400 with one of its two messages and no child run, or 500 with a non-empty error |
| LocalTts.OutputNameInjective | app/api/local-tts/route.ts:94 | distinct timestamps give distinct output file names |
| Reference.Save | app/api/reference/route.ts:31-80 | the whole handler: a form that cannot be parsed answers the caught error with nothing changed; the only child ever run is the one ffmpeg conversion, and a 200 needs it |
| Reference.TrySave | app/api/reference/route.ts:32-73 | the `try` block, run in place on the store, yields the response, ffmpeg call and tree of `Save` |
| Reference.Post | app/api/reference/route.ts:31-80 | the handler with its `catch` produces exactly `Save` |
| Reference.MissingFileRejected | app/api/reference/route.ts:34-37 | without a file, the answer is 400 "Missing file", nothing is written and no child runs |
| Reference.StagingNameIsNotWav | app/api/reference/route.ts:43-44 | `<id>.wav` ends in ".wav", `<id>.input` does not, and the two names differ |
| Reference.SaveStoresOnlyTheConvertedFile | app/api/reference/route.ts:39-73 | POST answers 200 exactly when there is a file, `REF_DIR` can be made, the staging file written and ffmpeg exits 0; then `<id>.wav` holds ffmpeg's output, `<id>.input` is gone, and the body is `{ id, "<id>.wav", "/storage/references/<id>.wav" }` |
| Reference.StagingKeptOnFailure | app/api/reference/route.ts:50-67 | when ffmpeg fails, the answer is 500 with run's message and `<id>.input` stays with the uploaded bytes |
| Reference.SaveResponseKinds | app/api/reference/route.ts:31-80 | POST answers 200 with the saved names, 400 "Missing file" with nothing touched, or 500 with a non-empty error, and runs at most one child |
| Reference.WavEntries | app/api/reference/route.ts:90 | the filter keeps each name ending in ".wav" as often as it occurs and drops every other name |
| Reference.Names | app/api/reference/route.ts:102 | the answer lists the records' names position by position |
| Reference.NamesPermutation | app/api/reference/route.ts:100-102 | reordering the records reorders their names the same way |
| Reference.InsertNewest | app/api/reference/route.ts:100 | one insertion step: with `a[..i]` newest first, `a[..i+1]` becomes newest first, and the array keeps the same records |
| Reference.SortNewestFirst | app/api/reference/route.ts:100 | the in-place sort leaves mtimes non-increasing and the records a permutation of the input |
| Reference.StatAll | app/api/reference/route.ts:92-98 | one `{ name, mtime }` per `.wav` name, in the same order, with each file's mtime |
| Reference.ListingFromSorted | app/api/reference/route.ts:89-102 | filtered, statted and sorted records yield a listing of exactly the `.wav` entries, newest first |
| Reference.Get | app/api/reference/route.ts:85-109 | GET makes `REF_DIR` if needed; if that fails it answers 500 with mkdir's error and changes nothing; otherwise it answers 200 with every `.wav` entry exactly once and no other name, newest first |
| Reference.EmptyListing | app/api/reference/route.ts:87-90 | a directory with no `.wav` entries (a freshly made one included) lists as `[]` |
| Reference.ListingShowsStoredNotStaged | app/api/reference/route.ts:90 | a listing never shows a staging file `<id>.input` and always shows a stored `<id>.wav` |
| Reference.NewerListedFirst | app/api/reference/route.ts:100 | of two listed references, the one modified later comes first |
| Reference.SavedThenListed | app/api/reference/route.ts:69-102 | after a successful POST with a fresh id, a listing names the new `<id>.wav` and never its staging file |

## Left out

- Audio content is not modelled. Neither ffmpeg's transcoding (44.1 kHz mono PCM) nor the XTTS model's output is modelled. Each child's result is an opaque parameter, as are its output bytes and its exit code.
- The XTTS Python script, the browser page and the layout are not part of this model.
- Node's event plumbing for children (`data`, `error` and `close` events and their interleaving) is reduced to one outcome per child, with stderr as a sequence of chunks.
- `randomUUID()`, `Date.now()`, `os.tmpdir()`, `process.cwd()` and `XTTS_PYTHON` are parameters. Their uniqueness is not modelled: lemmas that need a fresh name take it as a precondition.
- LocalTts.Post: one timestamp `now` per request stands for `Date.now()` and for every mtime the request stamps. Distinct steps of one request get the same mtime.
- FileStore.MakeDirs, FileStore.WriteAt, FileStore.RemoveTree: creating or removing an entry does not update the parent directory's mtime.
- Reference.StatAll: mtimes are integers. They stand for the floating-point `s.mtimeMs`, and fractional milliseconds are not modelled.
- ProcessRunner.Effect: a child that exits 0 but whose destination cannot be written (a missing or non-directory parent, or a directory at the destination) leaves nothing behind; what a real child does there (fail, or exit 0 without output) is not modelled, so a reference POST whose `<id>.wav` is already a directory answers 200 without a new file.
- ProcessRunner.Run: every child is assumed to exit. The handlers pipe each child's standard output but never read it. A child that fills that pipe would block, and the request would never reach its `finally` clause; this is not modelled.
- Concurrency between requests is not modelled. Each request runs alone on the store.
- Reference.Get: ties in mtime are sorted by the model's insertion sort. The order among equal mtimes is not claimed to match the engine's `Array.prototype.sort`.
- Reference.Get: the catch branches for a failing `readdir` or `stat` are not modelled. In this model's store they cannot fail once `mkdir` succeeded, because no concurrent request removes entries.
- Path traversal through `referenceId` (for example `../x`) is not modelled. A referenceId is one path component, and components containing "/" are not split.
- A child that fails after writing part of its output leaves the file system unchanged in this model.
- Disk-full, permission and other I/O errors are not modelled. The only file-system failures are the ones the tree's shape causes: ENOENT, ENOTDIR, EEXIST and EISDIR.
- A failing `rm` in the `finally` clause is not modelled. The removal always succeeds.
- Form fields of the wrong type, such as a file given as `text`, are not modelled. Each field is an optional string or optional bytes.
- Decoding stderr chunks as UTF-8 is the identity here. A multi-byte character split across chunks is not modelled.
- FileStore.Store.Rm: requires a non-root path. Both routes only remove paths below a named directory.
- Reference.Post: the `rm` of the staging file uses the recursive removal of `FileStore.RemoveTree`. On a regular file this has the same effect as `rm(p, { force: true })`.
