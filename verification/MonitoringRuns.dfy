/** The bandwidth monitor's server over whole runs: its calls complete in any order, one at a time,
    while the children draw local ids of their own. */
module MonitoringRuns {
  import opened Wrappers
  import opened LogRecords
  import opened MonitoringServer
  import Base64

  // The server, the calls under way, which call each id is, whether one has failed or the server
  // has given up, and the log file as it was opened.
  datatype Session = Session(server: Server, outstanding: set<nat>, made: map<nat, Call>, failed: bool, text: string)

  // The local ids that were drawn.
  function Drawn(a: nat, b: nat): set<nat>
    decreases b - a
  {
    if a >= b then {} else {a} + Drawn(a + 1, b)
  }

  // The calls from the k-th on, under the ids from first on.
  function Made(calls: seq<Call>, k: nat, first: nat): map<nat, Call>
    decreases |calls| - k
  {
    if k >= |calls| then map[] else map[first := calls[k]] + Made(calls, k + 1, first + 1)
  }

  /** A call under way completes. */
  function Complete(read: Reading, x: Session, id: nat, code: int, env: Env): Session {
    var (s, r) := Yield(read, x.server, ChildTaskCompletion(id, code), env);
    Session(s, x.outstanding - {id} + Drawn(x.server.localProcId, s.localProcId),
            x.made + Made(s.calls, |x.server.calls|, x.server.localProcId),
            x.failed || r.Throws? || (r.Ends? && r.failed),
            if x.server.currentOp == WebsocketInit && code > 0 then env.file else x.text)
  }

  // ---------------------------------------------------------------- what every run keeps

  ghost predicate Single(ids: set<nat>, bound: nat) { exists id :: id < bound && ids == {id} }

  // A live frame and a timer are under way until each completes, and not both have.
  ghost predicate Paced(s: Server, outstanding: set<nat>, failed: bool) {
    && s.timerid != s.websocketWriterid && s.timerid < s.localProcId && s.websocketWriterid < s.localProcId
    && outstanding <= {s.timerid, s.websocketWriterid}
    && (s.writeOccurred ==> s.websocketWriterid !in outstanding)
    && (s.timeoutOccurred ==> s.timerid !in outstanding)
    && !(s.writeOccurred && s.timeoutOccurred)
    && (failed <==>
          (!s.writeOccurred && s.websocketWriterid !in outstanding) || (!s.timeoutOccurred && s.timerid !in outstanding))
  }

  // One call is under way until live frames and timers go in pairs; none after a failure.
  ghost predicate Scheduled(x: Session) {
    var s := x.server;
    if s.timerid == 0 then
      s.websocketWriterid == 0 && if x.failed then x.outstanding == {} else Single(x.outstanding, s.localProcId)
    else s.currentOp == WebsocketLive && Paced(s, x.outstanding, x.failed)
  }

  // What has been sent so far.
  ghost predicate Replayed(read: Reading, s: Server, text: string) {
    match s.currentOp
    case WebsocketLogs => s.frames + History(read, s.log) == History(read, text)
    case WebsocketLive => Sequel(History(read, text) + [Marker], s.frames)
    case _ => s.frames == []
  }

  // fs is as and live frames after it.
  ghost predicate Sequel(hs: seq<Payload>, fs: seq<Payload>) { hs <= fs && AllLive(fs[|hs|..]) }

  ghost predicate Orderly(read: Reading, x: Session) { Scheduled(x) && Replayed(read, x.server, x.text) }

  lemma SendLogsOk(read: Reading, s: Server, text: string)
    requires s.currentOp == WebsocketLogs && Replayed(read, s, text)
    ensures Replayed(read, SendLogs(read, s), text)
    ensures SendLogs(read, s).currentOp == if History(read, s.log) == [] then WebsocketLive else WebsocketLogs
    ensures |SendLogs(read, s).frames| == |s.frames| + 1 && |SendLogs(read, s).calls| == |s.calls| + 1
  {
    HistoryStep(read, s.log);
    var (rs, rest) := Take(read, s.log, 15);
    Assoc(s.frames, [Chunk(PackAll(rs))], History(read, rest));
    assert rs == [] ==> s.frames + [] == s.frames;
  }

  // What a completion may change: nothing is called while another call is under way or after a
  // failure, and then one frame at most is sent; the record of a live frame stays until then.
  ghost predicate Advances(x: Session, y: Session, id: nat, code: int, env: Env) {
    var s, t := x.server, y.server;
    && id !in y.outstanding
    && (t.calls != s.calls ==> code > 0 && x.outstanding == {id} && !x.failed)
    && (code <= 0 ==> y.failed && t == s)
    && (x.failed ==> y.failed)
    && if code > 0 && x.outstanding == {id} && !x.failed && s.currentOp == WebsocketLive then
         !y.failed && t.frames == s.frames + [Live(env.sample)] && t.rec == env.sample && t.currentOp == WebsocketLive
         && y.outstanding == {t.timerid, t.websocketWriterid} && t.timerid != 0
       else if code > 0 && !x.failed && s.currentOp in {WebsocketInit, WebsocketLogs} then
         !y.failed && |t.frames| == |s.frames| + 1 && t.rec == s.rec && t.timerid == 0
       else t.frames == s.frames && t.rec == s.rec
  }

  lemma FailedOk(read: Reading, x: Session, id: nat, code: int, env: Env)
    requires Orderly(read, x) && id in x.outstanding && code <= 0
    ensures Orderly(read, Complete(read, x, id, code, env)) && Advances(x, Complete(read, x, id, code, env), id, code, env)
  {
  }

  lemma HttpOk(read: Reading, x: Session, id: nat, code: int, env: Env)
    requires Orderly(read, x) && id in x.outstanding && code > 0 && x.server.currentOp in {Read, Write}
    ensures Orderly(read, Complete(read, x, id, code, env)) && Advances(x, Complete(read, x, id, code, env), id, code, env)
  {
    var n := x.server.localProcId;
    assert Drawn(n, n + 1) == {n} && Single({n}, n + 1);
  }

  // The first chunk, from the log file as it is now opened.
  lemma OpenedOk(read: Reading, x: Session, id: nat, code: int, env: Env)
    requires Orderly(read, x) && id in x.outstanding && code > 0 && x.server.currentOp == WebsocketInit
    ensures Orderly(read, Complete(read, x, id, code, env)) && Advances(x, Complete(read, x, id, code, env), id, code, env)
  {
    var n := x.server.localProcId;
    assert Drawn(n, n + 1) == {n} && Single({n}, n + 1);
    assert [] + History(read, env.file) == History(read, env.file);
    SendLogsOk(read, x.server.(log := env.file, currentOp := WebsocketLogs), env.file);
  }

  lemma LogsOk(read: Reading, x: Session, id: nat, code: int, env: Env)
    requires Orderly(read, x) && id in x.outstanding && code > 0 && x.server.currentOp == WebsocketLogs
    ensures Orderly(read, Complete(read, x, id, code, env)) && Advances(x, Complete(read, x, id, code, env), id, code, env)
  {
    var n := x.server.localProcId;
    assert Drawn(n, n + 1) == {n} && Single({n}, n + 1);
    SendLogsOk(read, x.server, x.text);
  }

  lemma LiveSentOk(read: Reading, s: Server, text: string, sample: LogRecord)
    requires s.currentOp == WebsocketLive && Replayed(read, s, text) && s.localProcId > 0
    ensures Replayed(read, LiveSent(s, sample), text)
    ensures Paced(LiveSent(s, sample), {s.localProcId, s.localProcId + 1}, false) && LiveSent(s, sample).timerid != 0
    ensures Drawn(s.localProcId, s.localProcId + 2) == {s.localProcId, s.localProcId + 1}
  {
    var n := s.localProcId;
    assert Drawn(n + 1, n + 2) == {n + 1};
  }

  lemma LiveOk(read: Reading, x: Session, id: nat, code: int, env: Env)
    requires Orderly(read, x) && id in x.outstanding && code > 0 && x.server.currentOp == WebsocketLive
    ensures Orderly(read, Complete(read, x, id, code, env)) && Advances(x, Complete(read, x, id, code, env), id, code, env)
  {
    var m := Mark(x.server, id);
    MarkOk(x, id);
    if x.outstanding == {id} && !x.failed {
      LiveSentOk(read, m, x.text, env.sample);
      assert x.outstanding - {id} + Drawn(m.localProcId, m.localProcId + 2) == {m.localProcId, m.localProcId + 1};
    } else {
      assert x.outstanding - {id} + Drawn(m.localProcId, m.localProcId) == x.outstanding - {id};
    }
  }

  // Both completions have come, or nothing live has been sent, just when nothing else is under way.
  lemma MarkOk(x: Session, id: nat)
    requires Scheduled(x) && id in x.outstanding && x.server.currentOp == WebsocketLive
    ensures var m, out := Mark(x.server, id), x.outstanding - {id};
            && ((m.writeOccurred && m.timeoutOccurred) || m.timerid == 0 <==> x.outstanding == {id} && !x.failed)
            && (x.outstanding == {id} && !x.failed ==> out == {})
            && (!(x.outstanding == {id} && !x.failed) ==> m.timerid != 0 && Paced(m, out, x.failed))
  {
    var s := x.server;
    if s.timerid != 0 {
      assert x.outstanding == {id} <==>
             forall j :: j in {s.timerid, s.websocketWriterid} && j != id ==> j !in x.outstanding;
    }
  }

  /** Whatever completes, and however, the session stays in order and advances as it should. */
  lemma CompleteOk(read: Reading, x: Session, id: nat, code: int, env: Env)
    requires Orderly(read, x) && id in x.outstanding
    ensures Orderly(read, Complete(read, x, id, code, env)) && Advances(x, Complete(read, x, id, code, env), id, code, env)
  {
    if code <= 0 {
      FailedOk(read, x, id, code, env);
    } else if x.server.currentOp in {Read, Write} {
      HttpOk(read, x, id, code, env);
    } else if x.server.currentOp == WebsocketLive {
      LiveOk(read, x, id, code, env);
    } else if x.server.currentOp == WebsocketInit {
      OpenedOk(read, x, id, code, env);
    } else {
      LogsOk(read, x, id, code, env);
    }
  }

  // A new server, which has asked for its first request.
  function Started(rec0: LogRecord): Session {
    Session(Server(Read, "", 1, 0, 0, false, false, rec0, [ReadHttp], []), {0}, map[0 := ReadHttp], false, "")
  }

  lemma StartOk(read: Reading, rec0: LogRecord)
    ensures Orderly(read, Started(rec0))
  {
    assert Single({0}, 1);
  }

  /** A request for the WebSocket is accepted with the encoded digest of its key, and the server is
      ready to replay. */
  lemma UpgradeOk(read: Reading, x: Session, id: nat, code: int, env: Env)
    requires Orderly(read, x) && id in x.outstanding && code > 0 && !x.failed && x.server.currentOp == Read
    requires env.request.isGet && Upgrades(env.request) && env.request.hasKey
    ensures var y := Complete(read, x, id, code, env);
            && Upgrading(read, y)
            && y.server.calls == x.server.calls + [WriteHttp(SwitchingProtocols(Base64.Encode(env.digest)))]
  {
    HttpOk(read, x, id, code, env);
  }

  // A client has asked for the WebSocket, and the reply is under way.
  ghost predicate Upgrading(read: Reading, x: Session) {
    Orderly(read, x) && x.server.currentOp == WebsocketInit && !x.failed
  }

  // ---------------------------------------------------------------- every run

  datatype Input =
    | Completes(id: nat, code: int, env: Env)  // a call under way completes, well or not
    | OthersCall(n: nat)                       // children draw n local ids

  function Next(read: Reading, x: Session, i: Input): Session {
    match i
    case Completes(id, code, env) => Complete(read, x, id, code, env)
    case OthersCall(n) => x.(server := x.server.(localProcId := x.server.localProcId + n))
  }

  function After(read: Reading, x: Session, inputs: seq<Input>): Session {
    if inputs == [] then x else Next(read, After(read, x, inputs[..|inputs| - 1]), inputs[|inputs| - 1])
  }

  // A run in which calls under way complete in any order and with any code.
  ghost predicate AnyRun(read: Reading, x: Session, inputs: seq<Input>) {
    inputs == []
    || var before, i := After(read, x, inputs[..|inputs| - 1]), inputs[|inputs| - 1];
       AnyRun(read, x, inputs[..|inputs| - 1]) && (i.Completes? ==> i.id in before.outstanding)
  }

  lemma OthersOrderly(read: Reading, x: Session, n: nat)
    requires Orderly(read, x)
    ensures Orderly(read, Next(read, x, OthersCall(n)))
  {
    if x.server.timerid == 0 && !x.failed {
      var id :| id < x.server.localProcId && x.outstanding == {id};
      assert Single(x.outstanding, x.server.localProcId + n);
    }
  }

  lemma {:induction false} AnyRunOrderly(read: Reading, x: Session, inputs: seq<Input>)
    requires Orderly(read, x) && AnyRun(read, x, inputs)
    ensures Orderly(read, After(read, x, inputs))
  {
    if inputs != [] {
      var init, last := inputs[..|inputs| - 1], inputs[|inputs| - 1];
      AnyRunOrderly(read, x, init);
      match last
      case Completes(id, code, env) => CompleteOk(read, After(read, x, init), id, code, env);
      case OthersCall(n) => OthersOrderly(read, After(read, x, init), n);
    }
  }

  /** Pacing: wherever a run leads a new server, failures included, one call is under way until it
      is live, and then at most one frame and one timer; and unless a call has failed there is
      always one to wait for. */
  lemma EveryRun(read: Reading, rec0: LogRecord, inputs: seq<Input>)
    requires AnyRun(read, Started(rec0), inputs)
    ensures var y := After(read, Started(rec0), inputs);
            && Orderly(read, y) && |y.outstanding| <= 2
            && (y.server.timerid == 0 ==> |y.outstanding| <= 1)
            && (y.server.timerid != 0 ==> y.server.currentOp == WebsocketLive
                                          && y.outstanding <= {y.server.timerid, y.server.websocketWriterid})
            && (!y.failed ==> y.outstanding != {})
  {
    StartOk(read, rec0);
    AnyRunOrderly(read, Started(rec0), inputs);
    AtMostTwo(After(read, Started(rec0), inputs));
  }

  lemma AtMostTwo(y: Session)
    requires Scheduled(y)
    ensures |y.outstanding| <= if y.server.timerid == 0 then 1 else 2
    ensures !y.failed ==> y.outstanding != {}
  {
    if y.server.timerid != 0 {
      var both := {y.server.timerid, y.server.websocketWriterid};
      assert both == y.outstanding + (both - y.outstanding);
    }
  }

  /** Every completion in such a run advances the server as it should. */
  lemma EveryCompletion(read: Reading, rec0: LogRecord, inputs: seq<Input>, id: nat, code: int, env: Env)
    requires AnyRun(read, Started(rec0), inputs) && id in After(read, Started(rec0), inputs).outstanding
    ensures var y := After(read, Started(rec0), inputs); Advances(y, Complete(read, y, id, code, env), id, code, env)
  {
    EveryRun(read, rec0, inputs);
    CompleteOk(read, After(read, Started(rec0), inputs), id, code, env);
  }

  // ---------------------------------------------------------------- runs without failures

  ghost predicate Enabled(x: Session, i: Input) { i.Completes? ==> i.id in x.outstanding && i.code > 0 }

  ghost predicate GoodRun(read: Reading, x: Session, inputs: seq<Input>) {
    inputs == []
    || (GoodRun(read, x, inputs[..|inputs| - 1]) && Enabled(After(read, x, inputs[..|inputs| - 1]), inputs[|inputs| - 1]))
  }

  // How many calls completed.
  function Completed(inputs: seq<Input>): nat {
    if inputs == [] then 0
    else Completed(inputs[..|inputs| - 1]) + if inputs[|inputs| - 1].Completes? then 1 else 0
  }

  // The log file holds this text whenever it is opened.
  ghost predicate LogIs(inputs: seq<Input>, file: string) {
    forall i :: 0 <= i < |inputs| && inputs[i].Completes? ==> inputs[i].env.file == file
  }

  // The frames sent after n completions, when there are k history frames: one for each completion
  // up to the first live frame, then one for every two.
  function FramesAfter(k: nat, n: nat): nat { if n <= k + 2 then n else k + 2 + (n - k - 2) / 2 }

  // Where the server is after n completions.
  ghost predicate Reached(read: Reading, y: Session, file: string, n: nat) {
    var k := |History(read, file)|;
    && Orderly(read, y) && !y.failed && |y.server.frames| == FramesAfter(k, n)
    && y.server.currentOp == (if n == 0 then WebsocketInit else if n <= k then WebsocketLogs else WebsocketLive)
    && (n > 0 ==> y.text == file)
    && (n <= k + 1 <==> y.server.timerid == 0)
    && (n > k + 1 ==> ((n - k) % 2 == 0 <==> y.outstanding == {y.server.timerid, y.server.websocketWriterid}))
  }

  lemma OthersOk(read: Reading, x: Session, n: nat, file: string, c: nat)
    requires Reached(read, x, file, c)
    ensures Reached(read, Next(read, x, OthersCall(n)), file, c)
  {
    if x.server.timerid == 0 {
      var id :| id < x.server.localProcId && x.outstanding == {id};
      assert Single(x.outstanding, x.server.localProcId + n);
    }
  }

  lemma LogsReached(read: Reading, x: Session, id: nat, code: int, env: Env, file: string, n: nat)
    requires Reached(read, x, file, n) && id in x.outstanding && code > 0 && env.file == file
    requires n <= |History(read, file)|
    ensures Reached(read, Complete(read, x, id, code, env), file, n + 1)
  {
    CompleteOk(read, x, id, code, env);
    var s := if n == 0 then x.server.(log := file, currentOp := WebsocketLogs) else x.server;
    assert [] + History(read, file) == History(read, file);
    SendLogsOk(read, s, file);
  }

  lemma LiveReached(read: Reading, x: Session, id: nat, code: int, env: Env, file: string, n: nat)
    requires Reached(read, x, file, n) && id in x.outstanding && code > 0
    requires n > |History(read, file)|
    ensures Reached(read, Complete(read, x, id, code, env), file, n + 1)
  {
    CompleteOk(read, x, id, code, env);
    if x.server.timerid != 0 {
      OneLeft(x, id);
    }
    var k := |History(read, file)|;
    assert n > k + 1 ==> (x.outstanding == {id} <==> (n - k) % 2 == 1);
  }

  // A live completion was the last one awaited unless both were.
  lemma OneLeft(x: Session, id: nat)
    requires Scheduled(x) && !x.failed && id in x.outstanding && x.server.timerid != 0
    ensures x.outstanding == {id} <==> x.outstanding != {x.server.timerid, x.server.websocketWriterid}
    ensures x.outstanding - {id} != {x.server.timerid, x.server.websocketWriterid}
  {
    var both := {x.server.timerid, x.server.websocketWriterid};
    if x.outstanding != both {
      assert forall j :: j in both && j != id ==> j !in x.outstanding;
    }
  }

  lemma InputReached(read: Reading, x: Session, i: Input, file: string, n: nat)
    requires Reached(read, x, file, n) && Enabled(x, i) && (i.Completes? ==> i.env.file == file)
    ensures Reached(read, Next(read, x, i), file, if i.Completes? then n + 1 else n)
  {
    match i
    case OthersCall(m) => OthersOk(read, x, m, file, n);
    case Completes(id, code, env) =>
      if n <= |History(read, file)| {
        LogsReached(read, x, id, code, env, file, n);
      } else {
        LiveReached(read, x, id, code, env, file, n);
      }
  }

  // What every input carries from one count of completions to the next holds after every run.
  ghost predicate Carries(read: Reading, file: string, p: (Session, nat) -> bool, x: Session, i: Input, n: nat) {
    p(x, n) && Enabled(x, i) && (i.Completes? ==> i.env.file == file) ==>
      p(Next(read, x, i), if i.Completes? then n + 1 else n)
  }

  lemma {:induction false} RunCarries(read: Reading, x: Session, inputs: seq<Input>, file: string,
                                      p: (Session, nat) -> bool)
    requires p(x, 0) && forall y, i, n :: Carries(read, file, p, y, i, n)
    requires GoodRun(read, x, inputs) && LogIs(inputs, file)
    ensures p(After(read, x, inputs), Completed(inputs))
  {
    if inputs != [] {
      var init, last := inputs[..|inputs| - 1], inputs[|inputs| - 1];
      RunCarries(read, x, init, file, p);
      assert Carries(read, file, p, After(read, x, init), last, Completed(init));
    }
  }

  /** The run: after n completions, in any order, the server has sent the first n of the history
      frames and the marker, and from then on a live frame for every two completions. */
  lemma RunReaches(read: Reading, x: Session, inputs: seq<Input>, file: string)
    requires Reached(read, x, file, 0) && GoodRun(read, x, inputs) && LogIs(inputs, file)
    ensures Reached(read, After(read, x, inputs), file, Completed(inputs))
  {
    var p := (y: Session, n: nat) => Reached(read, y, file, n);
    forall y, i, n: nat ensures Carries(read, file, p, y, i, n) {
      if p(y, n) && Enabled(y, i) && (i.Completes? ==> i.env.file == file) {
        InputReached(read, y, i, file, n);
      }
    }
    RunCarries(read, x, inputs, file, p);
  }

  /** So n completions bring the first n frames of the history, the marker and live records; and
      one completion more than there are history frames makes the server live. */
  lemma {:induction false} RunSends(read: Reading, x: Session, inputs: seq<Input>, file: string)
    requires Upgrading(read, x) && GoodRun(read, x, inputs) && LogIs(inputs, file)
    ensures var hs, fs, n := History(read, file) + [Marker], After(read, x, inputs).server.frames, Completed(inputs);
            && |fs| == FramesAfter(|hs| - 1, n)
            && (n <= |hs| ==> fs == hs[..n])
            && (n >= |hs| ==> Sequel(hs, fs))
            && (n >= |hs| <==> After(read, x, inputs).server.currentOp == WebsocketLive)
  {
    assert Reached(read, x, file, 0);
    RunReaches(read, x, inputs, file);
    var h, fs, n := History(read, file), After(read, x, inputs).server.frames, Completed(inputs);
    if 0 < n <= |h| {
      var rest := History(read, After(read, x, inputs).server.log);
      assert fs == (fs + rest)[..n] == h[..n] == (h + [Marker])[..n];
    }
  }
}
