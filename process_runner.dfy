/**
 * The `run(cmd, args)` helper both route files define: spawn a child process, collect
 * its standard error, settle on exit. The child itself is opaque: what the operating
 * system reports about it is an input, and on exit code 0 it has written its destination
 * when that destination can be written (its parent is a directory and it is not one).
 */
module ProcessRunner {
  import opened Outcomes
  import opened Text
  import opened FileStore

  datatype Invocation = Invocation(cmd: string, args: seq<string>)

  /** What the operating system reports about one child process. */
  datatype ProcessOutcome =
    | SpawnFailed(error: string)
      /** The 'error' event: the program could not be started; `error` is the message Node gives. */
    | Exited(code: Option<int>, stderr: seq<string>, output: Bytes)
      /** The 'close' event with its code (`null` after a signal), the chunks read from
          standard error in arrival order, and the bytes it wrote to its destination. */

  /** The chunks joined in arrival order. */
  function Concat(chunks: seq<string>): (r: string)
    ensures chunks == [] ==> r == ""
    ensures chunks != [] ==> |chunks[0]| <= |r| && r[..|chunks[0]|] == chunks[0]
    decreases |chunks|
  {
    if chunks == [] then "" else Concat(chunks[..|chunks| - 1]) + chunks[|chunks| - 1]
  }

  lemma {:induction false} ConcatAppend(a: seq<string>, b: seq<string>)
    ensures Concat(a + b) == Concat(a) + Concat(b)
    decreases |b|
  {
    if b == [] {
      assert a + b == a;
    } else {
      var front := b[..|b| - 1];
      assert (a + b)[..|a + b| - 1] == a + front;
      ConcatAppend(a, front);
    }
  }

  /** Every chunk appears verbatim in the collected text, right after the chunks before it. */
  lemma ChunkVerbatim(chunks: seq<string>, i: nat)
    requires i < |chunks|
    ensures |Concat(chunks[..i])| + |chunks[i]| <= |Concat(chunks)|
    ensures Concat(chunks)[|Concat(chunks[..i])|..|Concat(chunks[..i])| + |chunks[i]|] == chunks[i]
  {
    assert chunks == chunks[..i] + [chunks[i]] + chunks[i + 1..];
    ConcatAppend(chunks[..i] + [chunks[i]], chunks[i + 1..]);
    ConcatAppend(chunks[..i], [chunks[i]]);
    assert [chunks[i]][..0] == [];
  }

  /** `${code}` for the code of the 'close' event. */
  function CodeText(code: Option<int>): string {
    match code
    case None => "null"
    case Some(c) => IntToString(c)
  }

  /** `${cmd} exited ${code}\n${stderr}`. */
  function ExitMessage(cmd: string, code: Option<int>, stderr: string): (m: string)
    ensures |m| >= |cmd| + 8 && m[..|cmd| + 8] == cmd + " exited "
    ensures EndsWith(m, "\n" + stderr)
  {
    cmd + " exited " + CodeText(code) + "\n" + stderr
  }

  /** The failure message names the command, carries the code, and ends with the error text unchanged. */
  lemma ExitMessageShape(cmd: string, code: Option<int>, stderr: string)
    ensures var m := ExitMessage(cmd, code, stderr);
      && m != ""
      && m[..|cmd| + 8] == cmd + " exited "
      && m[|m| - |stderr| - 1..] == "\n" + stderr
      && (code == None <==> m[|cmd| + 8..|m| - |stderr| - 1] == "null")
  {
    var m := ExitMessage(cmd, code, stderr);
    assert m == (cmd + " exited ") + CodeText(code) + ("\n" + stderr);
    assert m[|cmd| + 8..|m| - |stderr| - 1] == CodeText(code);
  }

  /** How the promise `run` returns settles. */
  function RunOutcome(cmd: string, o: ProcessOutcome): (r: Outcome)
    ensures r.Pass? <==> o.Exited? && o.code == Some(0)
    ensures o.SpawnFailed? ==> r == Fail(o.error)
    ensures o.Exited? && o.code != Some(0) ==> r == Fail(ExitMessage(cmd, o.code, Concat(o.stderr)))
  {
    match o
    case SpawnFailed(e) => Fail(e)
    case Exited(code, chunks, _) => if code == Some(0) then Pass else Fail(ExitMessage(cmd, code, Concat(chunks)))
  }

  /** `run`: resolves exactly on exit code 0; otherwise rejects with the spawn error or "<cmd> exited <code>\n<stderr>". */
  method Run(cmd: string, args: seq<string>, o: ProcessOutcome) returns (r: Outcome)
    ensures r == RunOutcome(cmd, o)
    ensures r.Pass? <==> o.Exited? && o.code == Some(0)
    ensures o.SpawnFailed? ==> r == Fail(o.error)
    ensures o.Exited? && o.code != Some(0) ==> r == Fail(cmd + " exited " + CodeText(o.code) + "\n" + Concat(o.stderr))
  {
    if o.SpawnFailed? {
      return Fail(o.error);
    }
    var stderr := "";
    var i := 0;
    while i < |o.stderr|
      invariant 0 <= i <= |o.stderr|
      invariant stderr == Concat(o.stderr[..i])
    {
      assert o.stderr[..i + 1][..i] == o.stderr[..i];
      stderr := stderr + o.stderr[i];
      i := i + 1;
    }
    assert o.stderr[..i] == o.stderr;
    if o.code == Some(0) {
      r := Pass;
    } else {
      r := Fail(cmd + " exited " + CodeText(o.code) + "\n" + stderr);
    }
  }

  /** What the child leaves on disk: on exit code 0, when the destination can be written (its parent is a
      directory and it is not one), the destination holds its output; otherwise the tree is unchanged. */
  function Effect(t: Tree, dest: Path, o: ProcessOutcome, now: int): (r: Tree)
    ensures r == t || (o.Exited? && o.code == Some(0) && r == t[dest := File(o.output, now)])
    ensures forall q :: q != dest ==> (q in r <==> q in t) && (q in r ==> r[q] == t[q])
  {
    if o.Exited? && o.code == Some(0) && WriteAt(t, dest, o.output, now).Ok? then
      WriteAt(t, dest, o.output, now).value
    else
      t
  }

  lemma EffectCreatesDestination(t: Tree, dest: Path, o: ProcessOutcome, now: int)
    requires o.Exited? && o.code == Some(0)
    requires dest != [] && Parent(dest) in t && t[Parent(dest)].Dir? && !(dest in t && t[dest].Dir?)
    ensures Effect(t, dest, o, now) == t[dest := File(o.output, now)]
  {
  }

  /** A child that does not exit with 0 leaves the tree as it was. */
  lemma FailedChildChangesNothing(t: Tree, dest: Path, o: ProcessOutcome, now: int)
    requires RunOutcome("", o).Fail?
    ensures Effect(t, dest, o, now) == t
  {
  }

  /** `await run(cmd, args)` together with the child's effect on the file system. */
  method Exec(fs: Store, inv: Invocation, dest: Path, o: ProcessOutcome, now: int) returns (r: Outcome)
    requires fs.Valid()
    modifies fs
    ensures fs.Valid()
    ensures r == RunOutcome(inv.cmd, o)
    ensures fs.tree == Effect(old(fs.tree), dest, o, now)
  {
    r := Run(inv.cmd, inv.args, o);
    if r.Pass? && WriteAt(fs.tree, dest, o.output, now).Ok? {
      var written := fs.WriteFile(dest, o.output, now);
    }
  }
}
