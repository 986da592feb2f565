/** What the two route files share: the request form, the responses, the storage layout, ffmpeg's command line. */
module Api {
  import opened Outcomes
  import opened FileStore
  import opened ProcessRunner

  /** The fields of the multipart form; `file` holds the uploaded blob's bytes. */
  datatype Form = Form(text: Option<string>, lang: Option<string>, file: Option<Bytes>, referenceId: Option<string>)

  /** `(form.get(name) as string) || fallback`: an absent or empty field gives the fallback. */
  function FieldOr(v: Option<string>, fallback: string): (r: string)
    ensures v.Some? && v.value != "" ==> r == v.value
    ensures v.None? || v.value == "" ==> r == fallback
    ensures fallback != "" ==> r != ""
  {
    if v.None? || v.value == "" then fallback else v.value
  }

  datatype Body =
    | ErrorJson(error: string)                              // { error }
    | Saved(id: string, filename: string, path: string)     // { id, filename, path }
    | Listing(references: seq<string>)                      // { references }
    | Audio(bytes: Bytes)                                   // raw WAV bytes

  datatype Response = Response(status: int, headers: seq<(string, string)>, body: Body)

  /** `NextResponse.json(body, { status })`. */
  function Json(body: Body, status: int): Response {
    Response(status, [("content-type", "application/json")], body)
  }

  /** The `catch` clause: status 500 with the error's message, or "Server error" when that is empty. */
  function CaughtError(message: string): (r: Response)
    ensures r.status == 500 && r.body.ErrorJson? && r.body.error != ""
    ensures message != "" ==> r.body.error == message
    ensures message == "" ==> r.body.error == "Server error"
  {
    Json(ErrorJson(if message == "" then "Server error" else message), 500)
  }

  /** What leaves a `try` block: a returned response, or the message of what was thrown. */
  function Caught(r: Result<Response>): Response {
    match r
    case Ok(response) => response
    case Err(m) => CaughtError(m)
  }

  /** The deployment: `process.cwd()`, `os.tmpdir()` and the XTTS_PYTHON environment variable. */
  datatype Config = Config(cwd: Path, tmp: Path, xttsPython: Option<string>)

  function StorageDir(cfg: Config): Path { cfg.cwd + ["storage"] }
  function RefDir(cfg: Config): Path { StorageDir(cfg) + ["references"] }
  function OutDir(cfg: Config): Path { StorageDir(cfg) + ["outputs"] }

  const FfmpegPath := "/usr/bin/ffmpeg"

  /** ffmpeg's command line: overwrite, quiet, resample to 44.1 kHz mono signed 16-bit PCM. */
  function FfmpegArgs(input: Path, output: Path): seq<string> {
    ["-y", "-hide_banner", "-loglevel", "error", "-i", Render(input),
     "-ar", "44100", "-ac", "1", "-c:a", "pcm_s16le", Render(output)]
  }

  /** A handled request: the response, the child processes started in order, and the file system afterwards. */
  datatype Exchange = Exchange(response: Response, calls: seq<Invocation>, tree: Tree)
}
