/**
 * The reference library route (`/api/reference`): POST stores an uploaded voice sample as
 * `<id>.wav` under `storage/references` by way of a staging file `<id>.input` and ffmpeg;
 * GET lists the stored `.wav` names, newest first.
 */
module Reference {
  import opened Outcomes
  import opened Text
  import opened FileStore
  import opened ProcessRunner
  import opened Api

  function StagingName(id: string): string { id + ".input" }
  function WavName(id: string): string { id + ".wav" }

  /** `{ id, filename: "<id>.wav", path: "/storage/references/<id>.wav" }`. */
  function SavedBody(id: string): Body {
    Saved(id, WavName(id), "/storage/references/" + WavName(id))
  }

  function ConvertInvocation(cfg: Config, id: string): Invocation {
    Invocation(FfmpegPath, FfmpegArgs(RefDir(cfg) + [StagingName(id)], RefDir(cfg) + [WavName(id)]))
  }

  /** POST as a whole: the `try` block and its `catch`. */
  function Save(t: Tree, cfg: Config, req: Result<Form>, id: string, now: int, ffmpeg: ProcessOutcome): (e: Exchange)
    ensures req.Err? ==> e == Exchange(CaughtError(req.message), [], t)
    ensures e.calls == [] || e.calls == [ConvertInvocation(cfg, id)]
    ensures e.calls == [] ==> e.response.status != 200
  {
    match req
    case Err(m) => Exchange(CaughtError(m), [], t)
    case Ok(form) =>
      if form.file.None? then
        Exchange(Json(ErrorJson("Missing file"), 400), [], t)
      else
        match MakeDirs(t, RefDir(cfg), now)
        case Err(m) => Exchange(CaughtError(m), [], t)
        case Ok(t1) =>
          var input := RefDir(cfg) + [StagingName(id)];
          var wav := RefDir(cfg) + [WavName(id)];
          match WriteAt(t1, input, form.file.value, now)
          case Err(m) => Exchange(CaughtError(m), [], t1)
          case Ok(t2) =>
            var convert := ConvertInvocation(cfg, id);
            var t3 := Effect(t2, wav, ffmpeg, now);
            match RunOutcome(convert.cmd, ffmpeg)
            case Fail(m) => Exchange(CaughtError(m), [convert], t3)
            case Pass => Exchange(Json(SavedBody(id), 200), [convert], RemoveTree(t3, input))
  }

  /** The `try` block of POST, lines 32-73. */
  method TrySave(fs: Store, cfg: Config, req: Result<Form>, id: string, now: int, ffmpeg: ProcessOutcome)
    returns (result: Result<Response>, calls: seq<Invocation>)
    requires fs.Valid()
    modifies fs
    ensures fs.Valid()
    ensures Exchange(Caught(result), calls, fs.tree) == Save(old(fs.tree), cfg, req, id, now, ffmpeg)
  {
    calls := [];
    if req.Err? {
      return Err(req.message), calls;
    }
    var file := req.value.file;
    if file.None? {
      return Ok(Json(ErrorJson("Missing file"), 400)), calls;
    }
    var o := fs.Mkdir(RefDir(cfg), now);
    if o.Fail? {
      return Err(o.message), calls;
    }
    var inputPath := RefDir(cfg) + [StagingName(id)];
    var wavPath := RefDir(cfg) + [WavName(id)];
    o := fs.WriteFile(inputPath, file.value, now);
    if o.Fail? {
      return Err(o.message), calls;
    }
    var convert := Invocation(FfmpegPath, FfmpegArgs(inputPath, wavPath));
    calls := [convert];
    o := Exec(fs, convert, wavPath, ffmpeg, now);
    if o.Fail? {
      return Err(o.message), calls;
    }
    fs.Rm(inputPath);
    result := Ok(Json(SavedBody(id), 200));
  }

  /** POST: the `try` block and the `catch` that turns a throw into a 500. */
  method Post(fs: Store, cfg: Config, req: Result<Form>, id: string, now: int, ffmpeg: ProcessOutcome)
    returns (response: Response, calls: seq<Invocation>)
    requires fs.Valid()
    modifies fs
    ensures fs.Valid()
    ensures Exchange(response, calls, fs.tree) == Save(old(fs.tree), cfg, req, id, now, ffmpeg)
  {
    var result;
    result, calls := TrySave(fs, cfg, req, id, now, ffmpeg);
    response := Caught(result);
  }

  // ---------------------------------------------------------------------------------
  // Properties of POST

  /** No file: 400 "Missing file", nothing written, nothing run. */
  lemma MissingFileRejected(t: Tree, cfg: Config, form: Form, id: string, now: int, ffmpeg: ProcessOutcome)
    requires form.file.None?
    ensures Save(t, cfg, Ok(form), id, now, ffmpeg) == Exchange(Json(ErrorJson("Missing file"), 400), [], t)
  {
  }

  /** The staging name and the stored name never coincide, and only the stored one ends in ".wav". */
  lemma StagingNameIsNotWav(id: string)
    ensures EndsWith(WavName(id), ".wav")
    ensures !EndsWith(StagingName(id), ".wav")
    ensures StagingName(id) != WavName(id)
  {
    AppendedSuffix(id, ".wav", ".wav");
    var s := StagingName(id);
    assert s[|s| - 4..] == "nput";
  }

  /** POST answers 200 exactly when there is a file, `REF_DIR` can be made, the staging file written and ffmpeg exits 0;
      then `<id>.wav` holds ffmpeg's output, `<id>.input` is gone and the reply names the stored file. */
  lemma SaveStoresOnlyTheConvertedFile(t: Tree, cfg: Config, req: Result<Form>, id: string, now: int, ffmpeg: ProcessOutcome)
    requires WellFormed(t)
    requires RefDir(cfg) + [WavName(id)] !in t
    ensures var e := Save(t, cfg, req, id, now, ffmpeg);
      var input := RefDir(cfg) + [StagingName(id)];
      var wav := RefDir(cfg) + [WavName(id)];
      && (e.response.status == 200 <==>
            && req.Ok? && req.value.file.Some?
            && MakeDirs(t, RefDir(cfg), now).Ok?
            && WriteAt(MakeDirs(t, RefDir(cfg), now).value, input, req.value.file.value, now).Ok?
            && ffmpeg.Exited? && ffmpeg.code == Some(0))
      && (e.response.status == 200 ==>
            && e.response == Json(SavedBody(id), 200)
            && e.calls == [ConvertInvocation(cfg, id)]
            && RefDir(cfg) in e.tree && e.tree[RefDir(cfg)].Dir?
            && wav in e.tree && e.tree[wav] == File(ffmpeg.output, now)
            && input !in e.tree)
  {
    StagingNameIsNotWav(id);
    match req
    case Err(_) =>
    case Ok(form) =>
      if form.file.Some? {
        match MakeDirs(t, RefDir(cfg), now)
        case Err(_) =>
        case Ok(t1) =>
          var input := RefDir(cfg) + [StagingName(id)];
          var wav := RefDir(cfg) + [WavName(id)];
          assert wav !in t1 by {
            assert !Within(wav, RefDir(cfg));
          }
          match WriteAt(t1, input, form.file.value, now)
          case Err(_) =>
          case Ok(t2) =>
            assert wav[..|input|] == wav && input[|input| - 1] != wav[|wav| - 1];
            if ffmpeg.Exited? && ffmpeg.code == Some(0) {
              EffectCreatesDestination(t2, wav, ffmpeg, now);
            }
      }
  }

  /** When ffmpeg fails the staging file `<id>.input` stays behind with the uploaded bytes and the request fails with 500. */
  lemma StagingKeptOnFailure(t: Tree, cfg: Config, form: Form, id: string, now: int, ffmpeg: ProcessOutcome)
    requires form.file.Some?
    requires MakeDirs(t, RefDir(cfg), now).Ok?
    requires WriteAt(MakeDirs(t, RefDir(cfg), now).value, RefDir(cfg) + [StagingName(id)], form.file.value, now).Ok?
    requires RunOutcome(FfmpegPath, ffmpeg).Fail?
    ensures var e := Save(t, cfg, Ok(form), id, now, ffmpeg);
      && e.response == CaughtError(RunOutcome(FfmpegPath, ffmpeg).message)
      && e.calls == [ConvertInvocation(cfg, id)]
      && RefDir(cfg) + [StagingName(id)] in e.tree
      && e.tree[RefDir(cfg) + [StagingName(id)]] == File(form.file.value, now)
  {
  }

  /** The answers POST can give: 200 with the stored names, 400 "Missing file" with nothing touched, or 500 with a message. */
  lemma SaveResponseKinds(t: Tree, cfg: Config, req: Result<Form>, id: string, now: int, ffmpeg: ProcessOutcome)
    ensures var e := Save(t, cfg, req, id, now, ffmpeg);
      && e.response.status in {200, 400, 500}
      && (e.response.status == 200 ==> e.response.body == SavedBody(id))
      && (e.response.status == 400 ==> e.response.body == ErrorJson("Missing file") && e.calls == [] && e.tree == t)
      && (e.response.status == 500 ==> e.response.body.ErrorJson? && e.response.body.error != "")
      && |e.calls| <= 1
  {
  }

  // ---------------------------------------------------------------------------------
  // GET

  datatype RefStat = RefStat(name: string, mtime: int)

  /** `refs.map((r) => r.name)`. */
  function Names(refs: seq<RefStat>): (names: seq<string>)
    ensures |names| == |refs|
    ensures forall i :: 0 <= i < |refs| ==> names[i] == refs[i].name
  {
    seq(|refs|, i requires 0 <= i < |refs| => refs[i].name)
  }

  lemma NamesAppend(a: seq<RefStat>, b: seq<RefStat>)
    ensures Names(a + b) == Names(a) + Names(b)
  {
  }

  /** Reordering the records reorders their names the same way. */
  lemma {:induction false} NamesPermutation(s: seq<RefStat>, u: seq<RefStat>)
    requires multiset(s) == multiset(u)
    ensures multiset(Names(s)) == multiset(Names(u))
    decreases |s|
  {
    if s == [] {
      assert |u| == |multiset(u)| == 0;
    } else {
      var x := s[0];
      assert x in multiset(u);
      var k :| 0 <= k < |u| && u[k] == x;
      var rest := u[..k] + u[k + 1..];
      assert u == u[..k] + [x] + u[k + 1..];
      assert s == [x] + s[1..];
      calc {
        multiset(s[1..]);
        multiset(s) - multiset{x};
        multiset(u) - multiset{x};
        multiset(rest);
      }
      NamesPermutation(s[1..], rest);
      NamesAppend([x], s[1..]);
      NamesAppend(u[..k], [x]);
      NamesAppend(u[..k] + [x], u[k + 1..]);
      NamesAppend(u[..k], u[k + 1..]);
    }
  }

  predicate NewestFirst(refs: seq<RefStat>) {
    forall i, j :: 0 <= i < j < |refs| ==> refs[i].mtime >= refs[j].mtime
  }

  /** `files.filter((f) => f.endsWith(".wav"))`: each name ending in ".wav" as often as it occurs, no other. */
  function WavEntries(names: seq<string>): (wavs: seq<string>)
    ensures forall n :: multiset(wavs)[n] == if EndsWith(n, ".wav") then multiset(names)[n] else 0
    decreases |names|
  {
    if names == [] then []
    else
      assert names == [names[0]] + names[1..];
      (if EndsWith(names[0], ".wav") then [names[0]] else []) + WavEntries(names[1..])
  }

  lemma SwapKeepsMultiset(s: seq<RefStat>, i: nat, j: nat)
    requires i < j < |s|
    ensures multiset(s[i := s[j]][j := s[i]]) == multiset(s)
  {
    assert s == s[..i] + [s[i]] + s[i + 1..j] + [s[j]] + s[j + 1..];
    assert s[i := s[j]][j := s[i]] == s[..i] + [s[j]] + s[i + 1..j] + [s[i]] + s[j + 1..];
  }

  /** Exchanges `a[j - 1]` and `a[j]`. */
  method SwapBack(a: array<RefStat>, j: nat)
    requires 0 < j < a.Length
    modifies a
    ensures a[..] == old(a[..])[j - 1 := old(a[j])][j := old(a[j - 1])]
    ensures multiset(a[..]) == multiset(old(a[..]))
  {
    SwapKeepsMultiset(a[..], j - 1, j);
    a[j - 1], a[j] := a[j], a[j - 1];
  }

  /** One step of the insertion sort: moves `a[i]` left past every newer-than-it neighbour. */
  method InsertNewest(a: array<RefStat>, i: nat)
    requires i < a.Length
    requires forall p, q :: 0 <= p < q < i ==> a[p].mtime >= a[q].mtime
    modifies a
    ensures forall p, q :: 0 <= p < q <= i ==> a[p].mtime >= a[q].mtime
    ensures multiset(a[..]) == multiset(old(a[..]))
  {
    var j := i;
    while j > 0 && a[j - 1].mtime < a[j].mtime
      invariant 0 <= j <= i
      invariant forall p, q :: 0 <= p < q <= i && p != j && q != j ==> a[p].mtime >= a[q].mtime
      invariant forall k :: j < k <= i ==> a[j].mtime > a[k].mtime
      invariant multiset(a[..]) == multiset(old(a[..]))
    {
      SwapBack(a, j);
      j := j - 1;
    }
    forall p | 0 <= p < j
      ensures a[p].mtime >= a[j].mtime
    {
      if p < j - 1 {
        assert a[p].mtime >= a[j - 1].mtime;
      }
    }
  }

  /** `refs.sort((a, b) => b.mtime - a.mtime)`, as an insertion sort in place. */
  method SortNewestFirst(a: array<RefStat>)
    modifies a
    ensures NewestFirst(a[..])
    ensures multiset(a[..]) == multiset(old(a[..]))
  {
    var i := 0;
    while i < a.Length
      invariant 0 <= i <= a.Length
      invariant forall p, q :: 0 <= p < q < i ==> a[p].mtime >= a[q].mtime
      invariant multiset(a[..]) == multiset(old(a[..]))
    {
      InsertNewest(a, i);
      i := i + 1;
    }
  }

  /** What GET answers: every entry of `dir` whose name ends in ".wav", once each, newest first. */
  ghost predicate IsListing(t: Tree, dir: Path, names: seq<string>) {
    && (forall n :: multiset(names)[n] == if dir + [n] in t && EndsWith(n, ".wav") then 1 else 0)
    && (forall i :: 0 <= i < |names| ==> dir + [names[i]] in t)
    && (forall i, j :: 0 <= i < j < |names| ==> t[dir + [names[i]]].mtime >= t[dir + [names[j]]].mtime)
  }

  lemma ListingFromSorted(t: Tree, dir: Path, files: seq<string>, stats: seq<RefStat>, sorted: seq<RefStat>)
    requires forall n :: multiset(files)[n] == if dir + [n] in t then 1 else 0
    requires |stats| == |WavEntries(files)|
    requires forall k :: 0 <= k < |stats| ==>
      stats[k].name == WavEntries(files)[k] && dir + [stats[k].name] in t && stats[k].mtime == t[dir + [stats[k].name]].mtime
    requires multiset(sorted) == multiset(stats) && NewestFirst(sorted)
    ensures IsListing(t, dir, Names(sorted))
  {
    var wavs := WavEntries(files);
    assert Names(stats) == wavs;
    NamesPermutation(sorted, stats);
    forall k | 0 <= k < |sorted|
      ensures dir + [sorted[k].name] in t && sorted[k].mtime == t[dir + [sorted[k].name]].mtime
    {
      assert sorted[k] in multiset(stats);
      var j :| 0 <= j < |stats| && stats[j] == sorted[k];
    }
  }

  /** `Promise.all(wavs.map(stat))`: one `{ name, mtime }` per name, in the same order. */
  method StatAll(fs: Store, dir: Path, wavs: seq<string>) returns (refs: array<RefStat>)
    requires forall k :: 0 <= k < |wavs| ==> dir + [wavs[k]] in fs.tree
    ensures fresh(refs) && refs.Length == |wavs|
    ensures forall k :: 0 <= k < |wavs| ==>
      refs[k].name == wavs[k] && dir + [refs[k].name] in fs.tree && refs[k].mtime == fs.tree[dir + [refs[k].name]].mtime
  {
    refs := new RefStat[|wavs|](_ => RefStat("", 0));
    var i := 0;
    while i < |wavs|
      modifies refs
      invariant 0 <= i <= |wavs|
      invariant forall k :: 0 <= k < i ==> refs[k] == RefStat(wavs[k], fs.tree[dir + [wavs[k]]].mtime)
    {
      var s := fs.Stat(dir + [wavs[i]]);
      refs[i] := RefStat(wavs[i], s.value);
      i := i + 1;
    }
  }

  /** GET: make `REF_DIR` if needed, read it, keep the ".wav" names, stat each, sort newest first, answer the names. */
  method Get(fs: Store, cfg: Config, now: int) returns (response: Response)
    requires fs.Valid()
    modifies fs
    ensures fs.Valid()
    ensures match MakeDirs(old(fs.tree), RefDir(cfg), now)
      case Err(m) => response == CaughtError(m) && fs.tree == old(fs.tree)
      case Ok(t) =>
        && fs.tree == t && RefDir(cfg) in t && t[RefDir(cfg)].Dir?
        && response.status == 200 && response.body.Listing?
        && IsListing(t, RefDir(cfg), response.body.references)
  {
    var o := fs.Mkdir(RefDir(cfg), now);
    if o.Fail? {
      return CaughtError(o.message);
    }
    var dir := RefDir(cfg);
    var files := fs.Readdir(dir);
    var wavs := WavEntries(files.value);
    assert forall k :: 0 <= k < |wavs| ==> wavs[k] in multiset(wavs);
    var refs := StatAll(fs, dir, wavs);
    ghost var stats := refs[..];
    SortNewestFirst(refs);
    ListingFromSorted(fs.tree, dir, files.value, stats, refs[..]);
    response := Json(Listing(Names(refs[..])), 200);
  }

  // ---------------------------------------------------------------------------------
  // Properties of the listing

  /** A directory without ".wav" entries (a freshly made one included) lists as []. */
  lemma EmptyListing(t: Tree, dir: Path, names: seq<string>)
    requires IsListing(t, dir, names)
    requires forall n :: dir + [n] in t ==> !EndsWith(n, ".wav")
    ensures names == []
  {
    assert names != [] ==> multiset(names)[names[0]] > 0;
  }

  /** A staging file is never listed, and every stored `<id>.wav` is. */
  lemma ListingShowsStoredNotStaged(t: Tree, dir: Path, names: seq<string>, id: string)
    requires IsListing(t, dir, names)
    ensures StagingName(id) !in names
    ensures dir + [WavName(id)] in t ==> WavName(id) in names
  {
    StagingNameIsNotWav(id);
    assert StagingName(id) in names ==> multiset(names)[StagingName(id)] > 0;
  }

  /** Of two listed references, the one modified later comes first. */
  lemma NewerListedFirst(t: Tree, dir: Path, names: seq<string>, i: nat, j: nat)
    requires IsListing(t, dir, names)
    requires i < |names| && j < |names|
    requires t[dir + [names[i]]].mtime > t[dir + [names[j]]].mtime
    ensures i < j
  {
  }

  /** After a successful POST, a listing of the library names the new `<id>.wav` and never its staging file. */
  lemma SavedThenListed(t: Tree, cfg: Config, req: Result<Form>, id: string, now: int, ffmpeg: ProcessOutcome, names: seq<string>)
    requires WellFormed(t)
    requires RefDir(cfg) + [WavName(id)] !in t
    requires Save(t, cfg, req, id, now, ffmpeg).response.status == 200
    requires IsListing(Save(t, cfg, req, id, now, ffmpeg).tree, RefDir(cfg), names)
    ensures WavName(id) in names && StagingName(id) !in names
  {
    SaveStoresOnlyTheConvertedFile(t, cfg, req, id, now, ffmpeg);
    ListingShowsStoredNotStaged(Save(t, cfg, req, id, now, ffmpeg).tree, RefDir(cfg), names, id);
  }
}
