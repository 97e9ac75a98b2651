/** `runCommand` (src/server.ts:176-208): the child's output is gathered per
    stream, and the first `error` or `close` event settles the promise. The
    result of a settled run is a Result: Success carries the text the promise
    resolves with, Failure the message of the Error it rejects with. */
module Command {
  import opened Wrappers
  import opened JsString

  /** How the child ended, as the promise sees it: an `error` event (the spawn
      failed), or a `close` event with its exit code (None is the `null` code
      of a child ended by a signal) and the text gathered from each stream. */
  datatype ProcessEnd =
    | SpawnFailed(message: string)
    | Closed(code: Option<int>, stdout: string, stderr: string)

  const NoOutputText := "Command finished without output."

  /** `${code}` for a number or `null`. */
  /** `${code}` for a number or `null`: "null" exactly for a child ended by
      a signal, since a number's text starts with a digit or '-'. */
  function CodeText(code: Option<int>): (r: string)
    ensures r != ""
    ensures r == "null" <==> code.None?
  {
    match code
    case None => "null"
    case Some(n) =>
      assert IntText(n)[0] != 'n' by {
        if n >= 0 {
          assert IsDigit(NatText(n)[0]);
        } else {
          assert IntText(n)[0] == '-';
        }
      }
      IntText(n)
  }

  const ExitFailurePrefix := "Command failed with exit code "

  /** The failure message of a silent run: the prefix, the code's text, a
      full stop. */
  function ExitFailureText(code: Option<int>): (r: string)
    ensures |r| == |ExitFailurePrefix| + |CodeText(code)| + 1
    ensures r[..|ExitFailurePrefix|] == ExitFailurePrefix
    ensures r[|ExitFailurePrefix|..|r| - 1] == CodeText(code) && r[|r| - 1] == '.'
  {
    ExitFailurePrefix + CodeText(code) + "."
  }

  /** Distinct exit codes, and a signal, give distinct failure messages. */
  lemma ExitFailureTextInjective(a: Option<int>, b: Option<int>)
    requires ExitFailureText(a) == ExitFailureText(b)
    ensures a == b
  {
    assert CodeText(a) == CodeText(b);
    if a.Some? && b.Some? {
      IntTextInjective(a.value, b.value);
    }
  }

  /** The text a settled run carries, whichever way it settled. */
  function Message(r: Result<string, string>): string {
    match r
    case Success(text) => text
    case Failure(message) => message
  }

  /** `[stdout.trim(), stderr.trim()].filter(Boolean).join("\n")`: the
      trimmed streams, stdout first, the blank ones left out. */
  function CombinedOutput(stdout: string, stderr: string): (r: string)
    ensures r == "" <==> AllTrimmable(stdout) && AllTrimmable(stderr)
    ensures !AllTrimmable(stdout) && !AllTrimmable(stderr) ==> r == Trim(stdout) + "\n" + Trim(stderr)
    ensures !AllTrimmable(stdout) && AllTrimmable(stderr) ==> r == Trim(stdout)
    ensures AllTrimmable(stdout) && !AllTrimmable(stderr) ==> r == Trim(stderr)
  {
    TrimBlank(stdout);
    TrimBlank(stderr);
    JoinNonEmptyPair(Trim(stdout), Trim(stderr), "\n");
    Join(NonEmpty([Trim(stdout), Trim(stderr)]), "\n")
  }

  lemma JoinNonEmptyPair(a: string, b: string, sep: string)
    ensures Join(NonEmpty([a, b]), sep) ==
              if a != "" && b != "" then a + sep + b else if a != "" then a else b
  {
    assert [a, b][1..] == [b];
    assert [b][1..] == [];
    assert NonEmpty([b]) == (if b != "" then [b] else []);
    assert NonEmpty([a, b]) == (if a != "" then [a] else []) + NonEmpty([b]);
    if a != "" && b != "" {
      assert NonEmpty([a, b]) == [a, b];
    }
  }

  /** The promise's outcome once the child has ended: the spawn error; or,
      on close, success exactly for exit code 0, carrying the combined output
      or, when there is none, a placeholder that names the exit code on
      failure. */
  function RunCommand(end: ProcessEnd): (r: Result<string, string>)
    ensures end.SpawnFailed? ==> r == Failure(end.message)
    ensures end.Closed? ==> (r.Success? <==> end.code == Some(0))
    ensures end.Closed? && !(AllTrimmable(end.stdout) && AllTrimmable(end.stderr)) ==>
              Message(r) == CombinedOutput(end.stdout, end.stderr)
    ensures end.Closed? && AllTrimmable(end.stdout) && AllTrimmable(end.stderr) ==>
              r == if end.code == Some(0) then Success(NoOutputText) else Failure(ExitFailureText(end.code))
    ensures end.Closed? ==> Message(r) != ""
  {
    match end
    case SpawnFailed(message) => Failure(message)
    case Closed(code, stdout, stderr) =>
      var fullOutput := CombinedOutput(stdout, stderr);
      if code == Some(0) then
        Success(if fullOutput != "" then fullOutput else NoOutputText)
      else
        Failure(if fullOutput != "" then fullOutput else ExitFailureText(code))
  }

  /** What the child reports, in the order it arrives. */
  datatype ChildEvent =
    | StdoutData(chunk: string)
    | StderrData(chunk: string)
    | ChildError(message: string)
    | ChildClose(code: Option<int>)

  /** The events whose handlers settle the promise. */
  predicate Settles(e: ChildEvent) {
    e.ChildError? || e.ChildClose?
  }

  /** The text an event adds to stdout (`stdout += chunk`). */
  function OutChunk(e: ChildEvent): string {
    if e.StdoutData? then e.chunk else ""
  }

  /** The text an event adds to stderr (`stderr += chunk`). */
  function ErrChunk(e: ChildEvent): string {
    if e.StderrData? then e.chunk else ""
  }

  /** Everything written to stdout, in order. */
  function StdoutOf(events: seq<ChildEvent>): string {
    if events == [] then "" else OutChunk(events[0]) + StdoutOf(events[1..])
  }

  /** Everything written to stderr, in order. */
  function StderrOf(events: seq<ChildEvent>): string {
    if events == [] then "" else ErrChunk(events[0]) + StderrOf(events[1..])
  }

  /** The position of the first settling event, if there is one. */
  function FirstSettling(events: seq<ChildEvent>): (r: Option<nat>)
    ensures r.Some? ==> r.value < |events| && Settles(events[r.value])
    ensures r.Some? ==> forall j | 0 <= j < r.value :: !Settles(events[j])
    ensures r.None? ==> forall j | 0 <= j < |events| :: !Settles(events[j])
  {
    if events == [] then None
    else if Settles(events[0]) then Some(0)
    else
      match FirstSettling(events[1..])
      case None => None
      case Some(i) => Some(i + 1)
  }

  lemma FirstSettlingAt(events: seq<ChildEvent>, i: nat)
    requires i < |events| && Settles(events[i])
    requires forall j | 0 <= j < i :: !Settles(events[j])
    ensures FirstSettling(events) == Some(i)
  {
  }

  lemma FirstSettlingNone(events: seq<ChildEvent>)
    requires forall j | 0 <= j < |events| :: !Settles(events[j])
    ensures FirstSettling(events) == None
  {
  }

  /** Two runs that settle at the same positions have the same first
      settling event position. */
  lemma FirstSettlingSameShape(a: seq<ChildEvent>, b: seq<ChildEvent>)
    requires |a| == |b|
    requires forall j | 0 <= j < |a| :: Settles(a[j]) == Settles(b[j])
    ensures FirstSettling(a) == FirstSettling(b)
  {
    match FirstSettling(a)
    case None =>
      FirstSettlingNone(b);
    case Some(i) =>
      FirstSettlingAt(b, i);
  }

  /** The reference meaning of a run: the promise settles at the first
      `error` or `close`; a close sees the output that arrived before it;
      nothing after the settling event matters. None: not settled yet. */
  function Outcome(events: seq<ChildEvent>): Option<Result<string, string>> {
    match FirstSettling(events)
    case None => None
    case Some(i) =>
      var e := events[i];
      if e.ChildError? then Some(RunCommand(SpawnFailed(e.message)))
      else Some(RunCommand(Closed(e.code, StdoutOf(events[..i]), StderrOf(events[..i]))))
  }

  /** The promise's state after one more event, given what each stream has
      delivered so far: a settled promise stays as it is. */
  function SettleOnce(settled: Option<Result<string, string>>, e: ChildEvent, stdout: string, stderr: string)
    : Option<Result<string, string>>
  {
    if settled.Some? then settled
    else if e.ChildError? then Some(RunCommand(SpawnFailed(e.message)))
    else if e.ChildClose? then Some(RunCommand(Closed(e.code, stdout, stderr)))
    else None
  }

  /** The state of one `runCommand` call: the two accumulators of the
      closure and whether its promise has settled. */
  class CommandRun {
    var stdout: string
    var stderr: string
    var settled: Option<Result<string, string>>

    constructor ()
      ensures stdout == "" && stderr == "" && settled == None
    {
      stdout := "";
      stderr := "";
      settled := None;
    }

    /** Delivers one event to its handler. Resolving or rejecting a promise
        that has settled already does nothing. */
    method Handle(e: ChildEvent)
      modifies this
      ensures stdout == old(stdout) + OutChunk(e)
      ensures stderr == old(stderr) + ErrChunk(e)
      ensures settled == SettleOnce(old(settled), e, old(stdout), old(stderr))
    {
      assert stdout + "" == stdout && stderr + "" == stderr;
      match e
      case StdoutData(chunk) =>
        stdout := stdout + chunk;
      case StderrData(chunk) =>
        stderr := stderr + chunk;
      case ChildError(message) =>
        if settled.None? {
          assert RunCommand(SpawnFailed(message)) == Failure(message);
          settled := Some(Failure(message));
        }
      case ChildClose(code) =>
        if settled.None? {
          settled := Some(RunCommand(Closed(code, stdout, stderr)));
        }
    }
  }

  /** Appending one event to a run that has not settled settles it exactly
      when the event is an `error` or a `close`. */
  lemma OutcomeStep(p: seq<ChildEvent>, e: ChildEvent)
    ensures Outcome(p + [e]) == SettleOnce(Outcome(p), e, StdoutOf(p), StderrOf(p))
  {
    var q := p + [e];
    assert forall j | 0 <= j < |p| :: q[j] == p[j];
    match FirstSettling(p)
    case Some(i) =>
      FirstSettlingAt(q, i);
      assert q[..i] == p[..i];
    case None =>
      if Settles(e) {
        FirstSettlingAt(q, |p|);
        assert q[..|p|] == p;
      } else {
        FirstSettlingNone(q);
      }
  }

  /** Feeds the events to a fresh CommandRun in order; whatever it settles
      with is the reference Outcome of the events. */
  method RunEvents(events: seq<ChildEvent>) returns (outcome: Option<Result<string, string>>)
    ensures outcome == Outcome(events)
  {
    var run := new CommandRun();
    for i := 0 to |events|
      invariant run.stdout == StdoutOf(events[..i])
      invariant run.stderr == StderrOf(events[..i])
      invariant run.settled == Outcome(events[..i])
    {
      ghost var p := events[..i];
      assert events[..i + 1] == p + [events[i]];
      OutcomeStep(p, events[i]);
      StreamsStep(p, events[i]);
      run.Handle(events[i]);
    }
    assert events[..|events|] == events;
    outcome := run.settled;
  }

  lemma {:induction false} StdoutOfAppend(x: seq<ChildEvent>, y: seq<ChildEvent>)
    ensures StdoutOf(x + y) == StdoutOf(x) + StdoutOf(y)
  {
    if x == [] {
      assert x + y == y;
    } else {
      assert (x + y)[1..] == x[1..] + y;
      StdoutOfAppend(x[1..], y);
    }
  }

  lemma {:induction false} StderrOfAppend(x: seq<ChildEvent>, y: seq<ChildEvent>)
    ensures StderrOf(x + y) == StderrOf(x) + StderrOf(y)
  {
    if x == [] {
      assert x + y == y;
    } else {
      assert (x + y)[1..] == x[1..] + y;
      StderrOfAppend(x[1..], y);
    }
  }

  lemma StreamsStep(p: seq<ChildEvent>, e: ChildEvent)
    ensures StdoutOf(p + [e]) == StdoutOf(p) + OutChunk(e)
    ensures StderrOf(p + [e]) == StderrOf(p) + ErrChunk(e)
  {
    StdoutOfAppend(p, [e]);
    StderrOfAppend(p, [e]);
    assert [e][1..] == [];
  }

  /** Swapping a stdout chunk with the stderr chunk after it changes neither
      stream's text. */
  lemma SwapKeepsStreams(p: seq<ChildEvent>, out: string, err: string, rest: seq<ChildEvent>)
    ensures StdoutOf(p + [StdoutData(out), StderrData(err)] + rest) == StdoutOf(p + [StderrData(err), StdoutData(out)] + rest)
    ensures StderrOf(p + [StdoutData(out), StderrData(err)] + rest) == StderrOf(p + [StderrData(err), StdoutData(out)] + rest)
  {
    var oe := [StdoutData(out), StderrData(err)];
    var eo := [StderrData(err), StdoutData(out)];
    StdoutOfAppend(p + oe, rest);
    StdoutOfAppend(p + eo, rest);
    StderrOfAppend(p + oe, rest);
    StderrOfAppend(p + eo, rest);
    StdoutOfAppend(p, oe);
    StdoutOfAppend(p, eo);
    StderrOfAppend(p, oe);
    StderrOfAppend(p, eo);
    StreamsStep([StdoutData(out)], StderrData(err));
    StreamsStep([StderrData(err)], StdoutData(out));
    StreamsStep([], StdoutData(out));
    StreamsStep([], StderrData(err));
    assert [StdoutData(out)] + [StderrData(err)] == oe;
    assert [StderrData(err)] + [StdoutData(out)] == eo;
    assert [] + [StdoutData(out)] == [StdoutData(out)];
    assert [] + [StderrData(err)] == [StderrData(err)];
  }

  /** The combined output does not follow arrival order: a stdout chunk and
      a stderr chunk that arrive in either order give the same outcome, since
      all of stdout comes before all of stderr. */
  lemma InterleavingIrrelevant(p: seq<ChildEvent>, out: string, err: string, s: seq<ChildEvent>)
    ensures Outcome(p + [StdoutData(out), StderrData(err)] + s)
         == Outcome(p + [StderrData(err), StdoutData(out)] + s)
  {
    var a := p + [StdoutData(out), StderrData(err)] + s;
    var b := p + [StderrData(err), StdoutData(out)] + s;
    assert forall j | 0 <= j < |a| && j != |p| && j != |p| + 1 :: a[j] == b[j];
    FirstSettlingSameShape(a, b);
    match FirstSettling(a)
    case None =>
    case Some(i) =>
      assert a[i] == b[i];
      if i >= |p| + 2 {
        var rest := s[..i - |p| - 2];
        assert a[..i] == p + [StdoutData(out), StderrData(err)] + rest;
        assert b[..i] == p + [StderrData(err), StdoutData(out)] + rest;
        SwapKeepsStreams(p, out, err, rest);
      } else {
        assert a[..i] == b[..i];
      }
  }

  /** A child that writes and then closes settles with the close handler's
      result over everything it wrote. */
  lemma {:induction false} CloseAfterOutput(data: seq<ChildEvent>, code: Option<int>)
    requires forall j | 0 <= j < |data| :: !Settles(data[j])
    ensures Outcome(data + [ChildClose(code)]) == Some(RunCommand(Closed(code, StdoutOf(data), StderrOf(data))))
  {
    assert FirstSettling(data) == None;
    OutcomeStep(data, ChildClose(code));
  }
}
