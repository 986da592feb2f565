/**
 * The synthesis route (`POST /api/local-tts`): validate the form, make a per-request
 * workspace, put the reference voice in it (copied from the library or transcoded from
 * the upload), run the XTTS script into the durable outputs directory, answer with the
 * generated WAV, and remove the workspace on every way out.
 */
module LocalTts {
  import opened Outcomes
  import opened Text
  import opened FileStore
  import opened ProcessRunner
  import opened Api

  const Script := "scripts/xtts_generate.py"

  /** `path.join(os.tmpdir(), "xtts-" + randomUUID())`. */
  function WorkspaceDir(cfg: Config, uuid: string): (w: Path)
    ensures |w| == |cfg.tmp| + 1 && w[..|cfg.tmp|] == cfg.tmp
    ensures |w[|cfg.tmp|]| >= 5 && w[|cfg.tmp|][..5] == "xtts-"
  {
    cfg.tmp + ["xtts-" + uuid]
  }

  function ReferenceWav(workspace: Path): Path { workspace + ["reference.wav"] }
  function UploadPath(workspace: Path): Path { workspace + ["input"] }

  /** `out_${Date.now()}.wav`. */
  function OutputName(now: nat): (name: string)
    ensures |name| > 8 && name[..4] == "out_" && EndsWith(name, ".wav")
    ensures IsDigits(name[4..|name| - 4])
  {
    "out_" + NatToString(now) + ".wav"
  }

  /** `process.env.XTTS_PYTHON || path.join(process.cwd(), ".venv/bin/python")`. */
  function PythonCmd(cfg: Config): (cmd: string)
    ensures cfg.xttsPython.Some? && cfg.xttsPython.value != "" ==> cmd == cfg.xttsPython.value
    ensures cfg.xttsPython.None? || cfg.xttsPython.value == "" ==> cmd == Render(cfg.cwd + [".venv", "bin", "python"])
  {
    FieldOr(cfg.xttsPython, Render(cfg.cwd + [".venv", "bin", "python"]))
  }

  function CopyInvocation(cfg: Config, referenceId: string, wav: Path): Invocation {
    Invocation("cp", [Render(RefDir(cfg) + [referenceId]), Render(wav)])
  }

  function ModelInvocation(cfg: Config, wav: Path, text: string, lang: string, outPath: Path): Invocation {
    Invocation(PythonCmd(cfg), [Script, Render(wav), text, lang, Render(outPath)])
  }

  function AudioResponse(outName: string, bytes: Bytes): Response {
    Response(200, [("Content-Type", "audio/wav"), ("Cache-Control", "no-store"), ("X-Output-File", outName)], Audio(bytes))
  }

  /** Where the `try` block stops: its result, the value of `tmpDir` (`None` for ""), the children run, the file system. */
  datatype TryState = TryState(result: Result<Response>, tmpDir: Option<Path>, calls: seq<Invocation>, tree: Tree)

  /** The `try` block up to the reference resolution. */
  function TrySpec(t: Tree, cfg: Config, req: Result<Form>, uuid: string, now: nat,
                   prep: ProcessOutcome, model: ProcessOutcome): (a: TryState)
    ensures a.tmpDir.Some? ==> a.tmpDir.value == WorkspaceDir(cfg, uuid)
    ensures a.tmpDir.None? ==> a.tree == t && a.calls == []
    ensures |a.calls| <= 2
  {
    match req
    case Err(m) => TryState(Err(m), None, [], t)
    case Ok(form) =>
      var text := FieldOr(form.text, "");
      if Trim(text) == "" then
        TryState(Ok(Json(ErrorJson("Missing text"), 400)), None, [], t)
      else
        match MakeDirs(t, OutDir(cfg), now)
        case Err(m) => TryState(Err(m), None, [], t)
        case Ok(t1) =>
          var workspace := WorkspaceDir(cfg, uuid);
          match MakeDirs(t1, workspace, now)
          case Err(m) => TryState(Err(m), Some(workspace), [], t1)
          case Ok(t2) => ResolveSpec(t2, cfg, form, workspace, now, prep, model)
  }

  /** Getting `reference.wav` into the workspace: a stored reference first, else the upload, else a 400. */
  function ResolveSpec(t: Tree, cfg: Config, form: Form, workspace: Path, now: nat,
                       prep: ProcessOutcome, model: ProcessOutcome): (a: TryState)
    ensures a.tmpDir == Some(workspace)
    ensures |a.calls| <= 2
  {
    var wav := ReferenceWav(workspace);
    var referenceId := FieldOr(form.referenceId, "");
    if referenceId != "" then
      var cp := CopyInvocation(cfg, referenceId, wav);
      var t1 := Effect(t, wav, prep, now);
      match RunOutcome(cp.cmd, prep)
      case Fail(m) => TryState(Err(m), Some(workspace), [cp], t1)
      case Pass => GenerateSpec(t1, cfg, form, workspace, now, model, [cp])
    else if form.file.Some? then
      var input := UploadPath(workspace);
      match WriteAt(t, input, form.file.value, now)
      case Err(m) => TryState(Err(m), Some(workspace), [], t)
      case Ok(t1) =>
        var ffmpeg := Invocation(FfmpegPath, FfmpegArgs(input, wav));
        var t2 := Effect(t1, wav, prep, now);
        match RunOutcome(ffmpeg.cmd, prep)
        case Fail(m) => TryState(Err(m), Some(workspace), [ffmpeg], t2)
        case Pass => GenerateSpec(t2, cfg, form, workspace, now, model, [ffmpeg])
    else
      TryState(Ok(Json(ErrorJson("Missing file or referenceId"), 400)), Some(workspace), [], t)
  }

  /** Running the model into `OUT_DIR/out_<now>.wav` and reading the result back. */
  function GenerateSpec(t: Tree, cfg: Config, form: Form, workspace: Path, now: nat,
                        model: ProcessOutcome, calls: seq<Invocation>): (a: TryState)
    ensures a.tmpDir == Some(workspace)
    ensures |a.calls| == |calls| + 1 && a.calls[..|calls|] == calls
    ensures a.result.Ok? ==> a.result.value.status == 200 && a.result.value.body.Audio?
  {
    var outName := OutputName(now);
    var outPath := OutDir(cfg) + [outName];
    var xtts := ModelInvocation(cfg, ReferenceWav(workspace), FieldOr(form.text, ""), FieldOr(form.lang, "en"), outPath);
    var t1 := Effect(t, outPath, model, now);
    match RunOutcome(xtts.cmd, model)
    case Fail(m) => TryState(Err(m), Some(workspace), calls + [xtts], t1)
    case Pass =>
      match ReadAt(t1, outPath)
      case Err(m) => TryState(Err(m), Some(workspace), calls + [xtts], t1)
      case Ok(bytes) => TryState(Ok(AudioResponse(outName, bytes)), Some(workspace), calls + [xtts], t1)
  }

  /** The whole handler: `try`, then `catch`, then `finally` removing `tmpDir` when it was set. */
  function Synthesize(t: Tree, cfg: Config, req: Result<Form>, uuid: string, now: nat,
                      prep: ProcessOutcome, model: ProcessOutcome): (e: Exchange)
    ensures req.Err? ==> e == Exchange(CaughtError(req.message), [], t)
    ensures |e.calls| <= 2
  {
    var a := TrySpec(t, cfg, req, uuid, now, prep, model);
    Exchange(Caught(a.result), a.calls, if a.tmpDir.Some? then RemoveTree(a.tree, a.tmpDir.value) else a.tree)
  }

  /** `tmpDir` is set once the text is valid and `OUT_DIR` exists. */
  predicate WorkspaceAssigned(t: Tree, cfg: Config, req: Result<Form>, now: nat) {
    req.Ok? && !Blank(FieldOr(req.value.text, "")) && MakeDirs(t, OutDir(cfg), now).Ok?
  }

  /** The `try` block of POST, lines 41-110, with `return` for each early response and `Err` for what it throws. */
  method TryBody(fs: Store, cfg: Config, req: Result<Form>, uuid: string, now: nat,
                 prep: ProcessOutcome, model: ProcessOutcome)
    returns (result: Result<Response>, tmpDir: Option<Path>, calls: seq<Invocation>)
    requires fs.Valid()
    modifies fs
    ensures fs.Valid()
    ensures TryState(result, tmpDir, calls, fs.tree) == TrySpec(old(fs.tree), cfg, req, uuid, now, prep, model)
    ensures tmpDir.Some? ==> tmpDir.value == WorkspaceDir(cfg, uuid)
  {
    tmpDir, calls := None, [];
    if req.Err? {
      return Err(req.message), tmpDir, calls;
    }
    var form := req.value;
    var text := FieldOr(form.text, "");
    var lang := FieldOr(form.lang, "en");
    var referenceId := FieldOr(form.referenceId, "");
    if Trim(text) == "" {
      return Ok(Json(ErrorJson("Missing text"), 400)), tmpDir, calls;
    }
    var o := fs.Mkdir(OutDir(cfg), now);
    if o.Fail? {
      return Err(o.message), tmpDir, calls;
    }
    var workspace := WorkspaceDir(cfg, uuid);
    tmpDir := Some(workspace);
    o := fs.Mkdir(workspace, now);
    if o.Fail? {
      return Err(o.message), tmpDir, calls;
    }
    var wavPath := ReferenceWav(workspace);
    if referenceId != "" {
      var cp := CopyInvocation(cfg, referenceId, wavPath);
      calls := [cp];
      o := Exec(fs, cp, wavPath, prep, now);
      if o.Fail? {
        return Err(o.message), tmpDir, calls;
      }
    } else if form.file.Some? {
      var inputPath := UploadPath(workspace);
      o := fs.WriteFile(inputPath, form.file.value, now);
      if o.Fail? {
        return Err(o.message), tmpDir, calls;
      }
      var ffmpeg := Invocation(FfmpegPath, FfmpegArgs(inputPath, wavPath));
      calls := [ffmpeg];
      o := Exec(fs, ffmpeg, wavPath, prep, now);
      if o.Fail? {
        return Err(o.message), tmpDir, calls;
      }
    } else {
      return Ok(Json(ErrorJson("Missing file or referenceId"), 400)), tmpDir, calls;
    }
    var outName := OutputName(now);
    var outPath := OutDir(cfg) + [outName];
    var xtts := ModelInvocation(cfg, wavPath, text, lang, outPath);
    calls := calls + [xtts];
    o := Exec(fs, xtts, outPath, model, now);
    if o.Fail? {
      return Err(o.message), tmpDir, calls;
    }
    var out := fs.ReadFile(outPath);
    if out.Err? {
      return Err(out.message), tmpDir, calls;
    }
    result := Ok(AudioResponse(outName, out.value));
  }

  /** POST: the `try` block, the `catch` that turns a throw into a 500, and the `finally` that removes the workspace. */
  method Post(fs: Store, cfg: Config, req: Result<Form>, uuid: string, now: nat,
              prep: ProcessOutcome, model: ProcessOutcome)
    returns (response: Response, calls: seq<Invocation>)
    requires fs.Valid()
    modifies fs
    ensures fs.Valid()
    ensures Exchange(response, calls, fs.tree) == Synthesize(old(fs.tree), cfg, req, uuid, now, prep, model)
    ensures WorkspaceAssigned(old(fs.tree), cfg, req, now) ==>
      forall p :: p in fs.tree ==> !Within(WorkspaceDir(cfg, uuid), p)
    ensures !WorkspaceAssigned(old(fs.tree), cfg, req, now) ==> fs.tree == old(fs.tree)
  {
    var result, tmpDir;
    result, tmpDir, calls := TryBody(fs, cfg, req, uuid, now, prep, model);
    response := Caught(result);
    if tmpDir.Some? {
      fs.Rm(tmpDir.value);
    }
    WorkspaceRemoved(old(fs.tree), cfg, req, uuid, now, prep, model);
  }

  // ---------------------------------------------------------------------------------
  // Facts about each stage of the specification, used by the properties below

  lemma GenerateFacts(t: Tree, cfg: Config, form: Form, workspace: Path, now: nat,
                      model: ProcessOutcome, calls: seq<Invocation>)
    ensures var a := GenerateSpec(t, cfg, form, workspace, now, model, calls);
      var outPath := OutDir(cfg) + [OutputName(now)];
      && a.tmpDir == Some(workspace)
      && a.calls == calls + [ModelInvocation(cfg, ReferenceWav(workspace), FieldOr(form.text, ""), FieldOr(form.lang, "en"), outPath)]
      && (RunOutcome(PythonCmd(cfg), model).Fail? ==> a.result == Err(RunOutcome(PythonCmd(cfg), model).message))
      && (a.result.Ok? ==> outPath in a.tree && a.tree[outPath].File?
                           && a.result.value == AudioResponse(OutputName(now), a.tree[outPath].data))
  {
  }

  /** The first child: the copy when a referenceId is given, else ffmpeg on the written upload. */
  function FirstInvocation(cfg: Config, form: Form, workspace: Path): Invocation {
    var referenceId := FieldOr(form.referenceId, "");
    if referenceId != "" then CopyInvocation(cfg, referenceId, ReferenceWav(workspace))
    else Invocation(FfmpegPath, FfmpegArgs(UploadPath(workspace), ReferenceWav(workspace)))
  }

  lemma ResolveFacts(t: Tree, cfg: Config, form: Form, workspace: Path, now: nat,
                     prep: ProcessOutcome, model: ProcessOutcome)
    ensures var a := ResolveSpec(t, cfg, form, workspace, now, prep, model);
      var first := FirstInvocation(cfg, form, workspace);
      var outPath := OutDir(cfg) + [OutputName(now)];
      var missing := FieldOr(form.referenceId, "") == "" && form.file.None?;
      && a.tmpDir == Some(workspace)
      && |a.calls| <= 2
      && (missing ==> a == TryState(Ok(Json(ErrorJson("Missing file or referenceId"), 400)), Some(workspace), [], t))
      && (!missing && a.calls == [] ==> a.result.Err?)
      && (a.calls != [] ==> a.calls[0] == first)
      && (FieldOr(form.referenceId, "") == "" && form.file.Some? && a.calls != [] ==>
            UploadPath(workspace) in a.tree && a.tree[UploadPath(workspace)] == File(form.file.value, now))
      && (a.calls != [] && RunOutcome(first.cmd, prep).Fail? ==> |a.calls| == 1 && a.result == Err(RunOutcome(first.cmd, prep).message))
      && (|a.calls| == 1 ==> a.result.Err?)
      && (|a.calls| == 2 ==>
            && a.calls[1] == ModelInvocation(cfg, ReferenceWav(workspace), FieldOr(form.text, ""), FieldOr(form.lang, "en"), outPath)
            && (RunOutcome(PythonCmd(cfg), model).Fail? ==> a.result == Err(RunOutcome(PythonCmd(cfg), model).message)))
      && (a.result.Ok? && !missing ==> |a.calls| == 2 && outPath in a.tree && a.tree[outPath].File?
                                       && a.result.value == AudioResponse(OutputName(now), a.tree[outPath].data))
  {
    var wav := ReferenceWav(workspace);
    if FieldOr(form.referenceId, "") != "" {
      GenerateFacts(Effect(t, wav, prep, now), cfg, form, workspace, now, model, [FirstInvocation(cfg, form, workspace)]);
    } else if form.file.Some? {
      match WriteAt(t, UploadPath(workspace), form.file.value, now)
      case Err(_) =>
      case Ok(t1) =>
        GenerateFacts(Effect(t1, wav, prep, now), cfg, form, workspace, now, model, [FirstInvocation(cfg, form, workspace)]);
    }
  }

  lemma TryFacts(t: Tree, cfg: Config, req: Result<Form>, uuid: string, now: nat,
                 prep: ProcessOutcome, model: ProcessOutcome)
    ensures var a := TrySpec(t, cfg, req, uuid, now, prep, model);
      var workspace := WorkspaceDir(cfg, uuid);
      && (a.tmpDir.Some? <==> WorkspaceAssigned(t, cfg, req, now))
      && (a.tmpDir.Some? ==> a.tmpDir.value == workspace)
      && (a.tmpDir.None? ==> a.tree == t && a.calls == []
                             && (a.result.Err? || a.result == Ok(Json(ErrorJson("Missing text"), 400))))
      && (req.Ok? && Blank(FieldOr(req.value.text, "")) ==> a == TryState(Ok(Json(ErrorJson("Missing text"), 400)), None, [], t))
      && (a.tmpDir.Some? ==>
            var t1 := MakeDirs(t, OutDir(cfg), now).value;
            && OutDir(cfg) in t1
            && (MakeDirs(t1, workspace, now).Ok? ==>
                  a == ResolveSpec(MakeDirs(t1, workspace, now).value, cfg, req.value, workspace, now, prep, model))
            && (MakeDirs(t1, workspace, now).Err? ==> a.calls == [] && a.result.Err? && a.tree == t1))
  {
    match req
    case Err(_) =>
    case Ok(form) =>
      if Trim(FieldOr(form.text, "")) != "" {
        match MakeDirs(t, OutDir(cfg), now)
        case Err(_) =>
        case Ok(t1) =>
          match MakeDirs(t1, WorkspaceDir(cfg, uuid), now)
          case Err(_) =>
          case Ok(t2) =>
            assert TrySpec(t, cfg, req, uuid, now, prep, model) == ResolveSpec(t2, cfg, form, WorkspaceDir(cfg, uuid), now, prep, model);
            ResolveFacts(t2, cfg, form, WorkspaceDir(cfg, uuid), now, prep, model);
      }
  }

  /** Everything the properties need about the `try` block, whichever way it goes. */
  lemma TryOutline(t: Tree, cfg: Config, req: Result<Form>, uuid: string, now: nat,
                   prep: ProcessOutcome, model: ProcessOutcome)
    ensures var a := TrySpec(t, cfg, req, uuid, now, prep, model);
      var workspace := WorkspaceDir(cfg, uuid);
      var outPath := OutDir(cfg) + [OutputName(now)];
      && (a.tmpDir.Some? <==> WorkspaceAssigned(t, cfg, req, now))
      && (a.tmpDir.Some? ==> a.tmpDir.value == workspace)
      && (a.tmpDir.None? ==> a.tree == t && a.calls == [])
      && |a.calls| <= 2
      && (a.calls != [] ==> a.tmpDir.Some? && a.calls[0] == FirstInvocation(cfg, req.value, workspace))
      && (a.calls != [] && RunOutcome(a.calls[0].cmd, prep).Fail? ==>
            |a.calls| == 1 && a.result == Err(RunOutcome(a.calls[0].cmd, prep).message))
      && (|a.calls| == 1 ==> a.result.Err?)
      && (|a.calls| == 2 ==>
            && a.calls[1] == ModelInvocation(cfg, ReferenceWav(workspace), FieldOr(req.value.text, ""), FieldOr(req.value.lang, "en"), outPath)
            && (RunOutcome(a.calls[1].cmd, model).Fail? ==> a.result == Err(RunOutcome(a.calls[1].cmd, model).message)))
      && (a.result.Ok? ==>
            || (a.result.value == Json(ErrorJson("Missing text"), 400) && a.calls == [])
            || (a.result.value == Json(ErrorJson("Missing file or referenceId"), 400) && a.calls == [])
            || (|a.calls| == 2 && outPath in a.tree && a.tree[outPath].File?
                && a.result.value == AudioResponse(OutputName(now), a.tree[outPath].data)))
  {
    TryFacts(t, cfg, req, uuid, now, prep, model);
    var a := TrySpec(t, cfg, req, uuid, now, prep, model);
    if a.tmpDir.Some? {
      var t1 := MakeDirs(t, OutDir(cfg), now).value;
      if MakeDirs(t1, WorkspaceDir(cfg, uuid), now).Ok? {
        ResolveFacts(MakeDirs(t1, WorkspaceDir(cfg, uuid), now).value, cfg, req.value, WorkspaceDir(cfg, uuid), now, prep, model);
      }
    }
  }

  // ---------------------------------------------------------------------------------
  // Properties of the handler, stated on its specification

  /** A blank or whitespace-only text is a 400 "Missing text" before anything is created or run. */
  lemma BlankTextRejected(t: Tree, cfg: Config, form: Form, uuid: string, now: nat,
                          prep: ProcessOutcome, model: ProcessOutcome)
    requires Blank(FieldOr(form.text, ""))
    ensures Synthesize(t, cfg, Ok(form), uuid, now, prep, model)
         == Exchange(Json(ErrorJson("Missing text"), 400), [], t)
  {
    TryFacts(t, cfg, Ok(form), uuid, now, prep, model);
  }

  /** Every way out leaves nothing under the workspace once it was assigned, and changes nothing when it was not. */
  lemma WorkspaceRemoved(t: Tree, cfg: Config, req: Result<Form>, uuid: string, now: nat,
                         prep: ProcessOutcome, model: ProcessOutcome)
    ensures var e := Synthesize(t, cfg, req, uuid, now, prep, model);
      && (WorkspaceAssigned(t, cfg, req, now) ==> forall p :: p in e.tree ==> !Within(WorkspaceDir(cfg, uuid), p))
      && (!WorkspaceAssigned(t, cfg, req, now) ==> e.tree == t && e.calls == [] && e.response.status != 200)
  {
    TryOutline(t, cfg, req, uuid, now, prep, model);
  }

  /** With a fresh workspace name, nothing under it exists after the request, whatever the outcome. */
  lemma FreshWorkspaceLeavesNothing(t: Tree, cfg: Config, req: Result<Form>, uuid: string, now: nat,
                                    prep: ProcessOutcome, model: ProcessOutcome)
    requires forall p :: p in t ==> !Within(WorkspaceDir(cfg, uuid), p)
    ensures forall p :: p in Synthesize(t, cfg, req, uuid, now, prep, model).tree ==> !Within(WorkspaceDir(cfg, uuid), p)
  {
    WorkspaceRemoved(t, cfg, req, uuid, now, prep, model);
  }

  lemma ResolveIgnoresUpload(t: Tree, cfg: Config, form: Form, upload: Option<Bytes>, workspace: Path, now: nat,
                             prep: ProcessOutcome, model: ProcessOutcome)
    requires FieldOr(form.referenceId, "") != ""
    ensures ResolveSpec(t, cfg, form, workspace, now, prep, model)
         == ResolveSpec(t, cfg, form.(file := upload), workspace, now, prep, model)
  {
  }

  /** A non-empty referenceId wins: the stored file is copied first and the upload plays no part at all. */
  lemma ReferenceIdWins(t: Tree, cfg: Config, form: Form, upload: Option<Bytes>, uuid: string, now: nat,
                        prep: ProcessOutcome, model: ProcessOutcome)
    requires FieldOr(form.referenceId, "") != ""
    ensures var e := Synthesize(t, cfg, Ok(form), uuid, now, prep, model);
      && e == Synthesize(t, cfg, Ok(form.(file := upload)), uuid, now, prep, model)
      && (e.calls != [] ==> e.calls[0] == CopyInvocation(cfg, form.referenceId.value, ReferenceWav(WorkspaceDir(cfg, uuid))))
  {
    var other := form.(file := upload);
    TryOutline(t, cfg, Ok(form), uuid, now, prep, model);
    if Trim(FieldOr(form.text, "")) != "" {
      match MakeDirs(t, OutDir(cfg), now)
      case Err(_) =>
      case Ok(t1) =>
        match MakeDirs(t1, WorkspaceDir(cfg, uuid), now)
        case Err(_) =>
        case Ok(t2) =>
          ResolveIgnoresUpload(t2, cfg, form, upload, WorkspaceDir(cfg, uuid), now, prep, model);
          assert TrySpec(t, cfg, Ok(form), uuid, now, prep, model) == ResolveSpec(t2, cfg, form, WorkspaceDir(cfg, uuid), now, prep, model);
          assert TrySpec(t, cfg, Ok(other), uuid, now, prep, model) == ResolveSpec(t2, cfg, other, WorkspaceDir(cfg, uuid), now, prep, model);
    }
  }

  /** Neither a referenceId nor a file: 400 after the workspace was made, which is still removed. */
  lemma MissingReferenceRejected(t: Tree, cfg: Config, form: Form, uuid: string, now: nat,
                                 prep: ProcessOutcome, model: ProcessOutcome)
    requires !Blank(FieldOr(form.text, "")) && FieldOr(form.referenceId, "") == "" && form.file.None?
    requires MakeDirs(t, OutDir(cfg), now).Ok?
    requires MakeDirs(MakeDirs(t, OutDir(cfg), now).value, WorkspaceDir(cfg, uuid), now).Ok?
    ensures var e := Synthesize(t, cfg, Ok(form), uuid, now, prep, model);
      && e.response == Json(ErrorJson("Missing file or referenceId"), 400)
      && e.calls == []
      && forall p :: p in e.tree ==> !Within(WorkspaceDir(cfg, uuid), p)
  {
    TryFacts(t, cfg, Ok(form), uuid, now, prep, model);
    var t1 := MakeDirs(t, OutDir(cfg), now).value;
    ResolveFacts(MakeDirs(t1, WorkspaceDir(cfg, uuid), now).value, cfg, form, WorkspaceDir(cfg, uuid), now, prep, model);
  }

  /** The output directory lies outside the request's workspace unless the working directory itself is inside it. */
  lemma OutDirOutsideWorkspace(cfg: Config, uuid: string)
    requires !Within(WorkspaceDir(cfg, uuid), cfg.cwd)
    ensures !Within(WorkspaceDir(cfg, uuid), OutDir(cfg))
  {
    var w := WorkspaceDir(cfg, uuid);
    WithinExtension(w, cfg.cwd, ["storage", "outputs"]);
    assert w[|w| - 1][0] == 'x';
  }

  /** `OUT_DIR/out_<now>.wav` is outside the workspace, so the cleanup never removes it. */
  lemma OutputOutsideWorkspace(cfg: Config, uuid: string, now: nat)
    requires !Within(WorkspaceDir(cfg, uuid), cfg.cwd)
    ensures !Within(WorkspaceDir(cfg, uuid), OutDir(cfg) + [OutputName(now)])
  {
    var w := WorkspaceDir(cfg, uuid);
    OutDirOutsideWorkspace(cfg, uuid);
    WithinExtension(w, OutDir(cfg), [OutputName(now)]);
    assert w[|w| - 1][0] == 'x';
  }

  /** A 200 answer ran the model with [script, wavPath, text, lang, outPath] (lang defaulting to "en"),
      and carries the bytes of `OUT_DIR/out_<now>.wav`, which survives the cleanup, named in X-Output-File. */
  lemma SuccessfulSynthesis(t: Tree, cfg: Config, req: Result<Form>, uuid: string, now: nat,
                            prep: ProcessOutcome, model: ProcessOutcome)
    requires !Within(WorkspaceDir(cfg, uuid), cfg.cwd)
    requires Synthesize(t, cfg, req, uuid, now, prep, model).response.status == 200
    ensures var e := Synthesize(t, cfg, req, uuid, now, prep, model);
      var workspace := WorkspaceDir(cfg, uuid);
      var outPath := OutDir(cfg) + [OutputName(now)];
      && req.Ok? && !Blank(FieldOr(req.value.text, ""))
      && |e.calls| == 2
      && e.calls[0] == FirstInvocation(cfg, req.value, workspace)
      && e.calls[1] == Invocation(PythonCmd(cfg), [Script, Render(ReferenceWav(workspace)), FieldOr(req.value.text, ""),
                                                   if req.value.lang.None? || req.value.lang.value == "" then "en" else req.value.lang.value,
                                                   Render(outPath)])
      && outPath in e.tree && e.tree[outPath].File?
      && e.response == AudioResponse(OutputName(now), e.tree[outPath].data)
      && ("X-Output-File", OutputName(now)) in e.response.headers
  {
    TryOutline(t, cfg, req, uuid, now, prep, model);
    OutputOutsideWorkspace(cfg, uuid, now);
  }

  /** A child that exits with a non-zero or null code fails the request with 500 and "<cmd> exited <code>\n<stderr>";
      a child that cannot be spawned fails it with the spawn error. Nothing runs after a failed child. */
  lemma ProcessFailureSurfaces(t: Tree, cfg: Config, req: Result<Form>, uuid: string, now: nat,
                               prep: ProcessOutcome, model: ProcessOutcome)
    ensures var e := Synthesize(t, cfg, req, uuid, now, prep, model);
      && (|e.calls| >= 1 && prep.Exited? && prep.code != Some(0) ==>
            |e.calls| == 1 && e.response == Json(ErrorJson(ExitMessage(e.calls[0].cmd, prep.code, Concat(prep.stderr))), 500))
      && (|e.calls| >= 1 && prep.SpawnFailed? ==> |e.calls| == 1 && e.response == CaughtError(prep.error))
      && (|e.calls| == 2 && model.Exited? && model.code != Some(0) ==>
            e.response == Json(ErrorJson(ExitMessage(e.calls[1].cmd, model.code, Concat(model.stderr))), 500))
      && (|e.calls| == 2 && model.SpawnFailed? ==> e.response == CaughtError(model.error))
  {
    TryOutline(t, cfg, req, uuid, now, prep, model);
  }

  /** The answers the handler can give: 200 with audio, 400 with one of two messages and no child run, or 500. */
  lemma ResponseKinds(t: Tree, cfg: Config, req: Result<Form>, uuid: string, now: nat,
                      prep: ProcessOutcome, model: ProcessOutcome)
    ensures var e := Synthesize(t, cfg, req, uuid, now, prep, model);
      && e.response.status in {200, 400, 500}
      && (e.response.status == 200 ==> e.response.body.Audio?)
      && (e.response.status == 400 ==>
            && e.calls == [] && e.response.body.ErrorJson?
            && e.response.body.error in {"Missing text", "Missing file or referenceId"})
      && (e.response.status == 500 ==> e.response.body.ErrorJson? && e.response.body.error != "")
  {
    TryOutline(t, cfg, req, uuid, now, prep, model);
  }

  /** Distinct timestamps give distinct output names (equal ones collide: the model claims no more). */
  lemma OutputNameInjective(a: nat, b: nat)
    requires OutputName(a) == OutputName(b)
    ensures a == b
  {
    var sa, sb := NatToString(a), NatToString(b);
    assert |sa| == |sb|;
    assert sa == OutputName(a)[4..4 + |sa|];
    assert sb == OutputName(b)[4..4 + |sb|];
    NatToStringInjective(a, b);
  }
}
