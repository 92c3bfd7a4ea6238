/** What the bandwidth monitor's server calls, and for whom it waits: its calls follow one another
    as the stages of a connection do, and each id it keeps is the id of the call it stands for. */
module MonitoringCalls {
  import opened LogRecords
  import opened MonitoringServer
  import opened MonitoringRuns
  import Base64

  // ---------------------------------------------------------------- the order of the calls

  // What may be called after c: replies answer requests, the history follows the upgrade and the
  // marker ends it, and each live frame has a timer of its own.
  predicate Follows(c: Call, d: Call) {
    match c
    case ReadHttp => d.WriteHttp?
    case PrepareTimer => d.WriteFrame? && d.payload.Live?
    case WriteHttp(Resource) => d.ReadHttp?
    case WriteHttp(SwitchingProtocols(_)) => d.WriteFrame? && !d.payload.Live?
    case WriteFrame(Chunk(_)) => d.WriteFrame? && !d.payload.Live?
    case WriteFrame(_) => d.PrepareTimer?
  }

  ghost predicate Conversation(cs: seq<Call>) {
    |cs| > 0 && cs[0] == ReadHttp && forall k :: 0 < k < |cs| ==> Follows(cs[k - 1], cs[k])
  }

  function FramesIn(cs: seq<Call>): seq<Payload> {
    if cs == [] then []
    else FramesIn(cs[..|cs| - 1]) + if cs[|cs| - 1].WriteFrame? then [cs[|cs| - 1].payload] else []
  }

  // The last call by the stage.
  predicate LastCall(op: State, c: Call) {
    match op
    case Read => c == ReadHttp
    case Write => c == WriteHttp(Resource)
    case WebsocketInit => c.WriteHttp? && c.reply.SwitchingProtocols?
    case WebsocketLogs => c.WriteFrame? && c.payload.Chunk?
    case WebsocketLive => c.WriteFrame? && !c.payload.Chunk?
  }

  lemma FramesInGrows(cs: seq<Call>, c: Call)
    ensures FramesIn(cs + [c]) == FramesIn(cs) + if c.WriteFrame? then [c.payload] else []
  {
    assert (cs + [c])[..|cs|] == cs;
  }

  // ---------------------------------------------------------------- which call an id is

  // What is under way: the last call, and in the live stage the timer with the frame.
  ghost predicate Awaited(x: Session) {
    var s := x.server;
    && (forall id :: id in x.made ==> id < s.localProcId)
    && (forall id :: id in x.outstanding ==> id in x.made)
    && s.calls != []
    && if s.timerid == 0 then
         forall id :: id in x.outstanding ==> x.made[id] == s.calls[|s.calls| - 1]
       else
         && s.timerid in x.made && x.made[s.timerid] == PrepareTimer
         && s.websocketWriterid in x.made && x.made[s.websocketWriterid] == WriteFrame(Live(s.rec))
         && s.calls[|s.calls| - 1] == WriteFrame(Live(s.rec))
  }

  // What has been called; a session that failed may have changed its stage without a call.
  ghost predicate Spoken(x: Session) {
    var s := x.server;
    && Conversation(s.calls) && FramesIn(s.calls) == s.frames && !s.calls[|s.calls| - 1].PrepareTimer?
    && (!x.failed ==> LastCall(s.currentOp, s.calls[|s.calls| - 1]))
    && (s.currentOp == WebsocketLive && s.timerid == 0 ==> s.calls[|s.calls| - 1] == WriteFrame(Marker))
  }

  ghost predicate Tracked(x: Session) { Awaited(x) && Spoken(x) }

  // ---------------------------------------------------------------- each completion

  // One more call, by an event of a session in which no timer has been set.
  lemma CallTracked(x: Session, y: Session, c: Call)
    requires Tracked(x) && x.server.timerid == y.server.timerid == 0 && y.server.localProcId == x.server.localProcId + 1
    requires y.server.calls == x.server.calls + [c] && y.made == x.made[x.server.localProcId := c]
    requires y.outstanding == {x.server.localProcId} && Follows(x.server.calls[|x.server.calls| - 1], c)
    requires y.server.frames == x.server.frames + if c.WriteFrame? then [c.payload] else []
    requires LastCall(y.server.currentOp, c) && (y.server.currentOp == WebsocketLive ==> c == WriteFrame(Marker))
    ensures Tracked(y)
  {
    FramesInGrows(x.server.calls, c);
  }

  lemma MadeOne(calls: seq<Call>, c: Call, first: nat)
    ensures Made(calls + [c], |calls|, first) == map[first := c]
  {
  }

  // An event that calls c and nothing else.
  ghost predicate CallsOne(s: Server, t: Server, c: Call) {
    && t.calls == s.calls + [c] && t.localProcId == s.localProcId + 1 && t.timerid == s.timerid
    && t.frames == s.frames + (if c.WriteFrame? then [c.payload] else [])
    && LastCall(t.currentOp, c) && (t.currentOp == WebsocketLive ==> c == WriteFrame(Marker))
  }

  lemma LogsCall(read: Reading, s: Server) returns (c: Call)
    requires s.currentOp == WebsocketLogs
    ensures CallsOne(s, SendLogs(read, s), c) && c.WriteFrame? && !c.payload.Live?
  {
    var (rs, _) := Take(read, s.log, 15);
    c := WriteFrame(if rs == [] then Marker else Chunk(PackAll(rs)));
  }

  // Everything up to the marker calls just what should follow.
  lemma EarlyCall(read: Reading, s: Server, id: nat, code: int, env: Env) returns (c: Call)
    requires code > 0 && s.currentOp != WebsocketLive && Yield(read, s, ChildTaskCompletion(id, code), env).1 == Waits
    ensures CallsOne(s, Yield(read, s, ChildTaskCompletion(id, code), env).0, c)
    ensures forall d :: LastCall(s.currentOp, d) ==> Follows(d, c)
  {
    match s.currentOp
    case Read =>
      c := WriteHttp(if Upgrades(env.request) then SwitchingProtocols(Base64.Encode(env.digest)) else Resource);
    case Write => c := ReadHttp;
    case WebsocketInit => c := LogsCall(read, s.(log := env.file, currentOp := WebsocketLogs));
    case WebsocketLogs => c := LogsCall(read, s);
  }

  lemma EarlyTracked(read: Reading, x: Session, id: nat, code: int, env: Env)
    requires Scheduled(x) && Tracked(x) && id in x.outstanding && code > 0 && x.server.currentOp != WebsocketLive
    requires Yield(read, x.server, ChildTaskCompletion(id, code), env).1 == Waits
    ensures Tracked(Complete(read, x, id, code, env))
  {
    var y := Complete(read, x, id, code, env);
    var n := x.server.localProcId;
    var c := EarlyCall(read, x.server, id, code, env);
    assert Drawn(n, n + 1) == {n};
    MadeOne(x.server.calls, c, n);
    CallTracked(x, y, c);
  }

  // A connection that ends calls nothing.
  lemma EndedTracked(read: Reading, x: Session, id: nat, code: int, env: Env)
    requires Scheduled(x) && Tracked(x) && id in x.outstanding
    requires Yield(read, x.server, ChildTaskCompletion(id, code), env).1 != Waits
    ensures Tracked(Complete(read, x, id, code, env))
  {
    var y, n := Complete(read, x, id, code, env), x.server.localProcId;
    assert Drawn(n, n) == {} && Made(y.server.calls, |x.server.calls|, n) == map[];
    assert y.made == x.made;
  }

  // In the live stage a timer and a frame are called together, or nothing.
  lemma PairTracked(x: Session, y: Session, m: Server, sample: LogRecord)
    requires Tracked(x) && x.server.currentOp == m.currentOp == WebsocketLive && m.localProcId == x.server.localProcId > 0
    requires m.calls == x.server.calls && m.frames == x.server.frames && (m.timerid == x.server.timerid) && !x.failed
    requires y.server == LiveSent(m, sample) && y.outstanding == {m.localProcId, m.localProcId + 1}
    requires y.made == x.made + map[m.localProcId := PrepareTimer, m.localProcId + 1 := WriteFrame(Live(sample))]
    ensures Tracked(y)
  {
    var l := WriteFrame(Live(sample));
    var cs := m.calls + [PrepareTimer];
    FramesInGrows(m.calls, PrepareTimer);
    FramesInGrows(cs, l);
    assert y.server.calls == cs + [l];
    assert Conversation(cs);
  }

  lemma LiveTracked(read: Reading, x: Session, id: nat, code: int, env: Env)
    requires Scheduled(x) && Tracked(x) && id in x.outstanding && code > 0 && x.server.currentOp == WebsocketLive
    ensures Tracked(Complete(read, x, id, code, env))
  {
    var y, n := Complete(read, x, id, code, env), x.server.localProcId;
    MarkOk(x, id);
    if x.outstanding == {id} && !x.failed {
      MadeTwo(x.server.calls, PrepareTimer, WriteFrame(Live(env.sample)), n);
      DrawnTwo(n);
      PairTracked(x, y, Mark(x.server, id), env.sample);
    } else {
      assert Drawn(n, n) == {} && Made(x.server.calls, |x.server.calls|, n) == map[];
      IdleTracked(x, y, Mark(x.server, id));
    }
  }

  lemma IdleTracked(x: Session, y: Session, m: Server)
    requires Tracked(x) && y.server == m && y.outstanding <= x.outstanding && y.made == x.made && y.failed == x.failed
    requires m == x.server.(writeOccurred := m.writeOccurred, timeoutOccurred := m.timeoutOccurred)
    ensures Tracked(y)
  {
  }

  lemma DrawnTwo(n: nat)
    ensures Drawn(n, n + 2) == {n, n + 1}
  {
    assert Drawn(n + 1, n + 2) == {n + 1};
  }

  lemma MadeTwo(calls: seq<Call>, c: Call, d: Call, first: nat)
    ensures Made(calls + [c] + [d], |calls|, first) == map[first := c, first + 1 := d]
  {
    assert Made(calls + [c] + [d], |calls| + 1, first + 1) == map[first + 1 := d];
  }

  lemma CompleteTracked(read: Reading, x: Session, id: nat, code: int, env: Env)
    requires Scheduled(x) && Tracked(x) && id in x.outstanding
    ensures Tracked(Complete(read, x, id, code, env))
  {
    if Yield(read, x.server, ChildTaskCompletion(id, code), env).1 != Waits {
      EndedTracked(read, x, id, code, env);
    } else if x.server.currentOp == WebsocketLive {
      LiveTracked(read, x, id, code, env);
    } else {
      EarlyTracked(read, x, id, code, env);
    }
  }

  // ---------------------------------------------------------------- every run

  lemma InputTracked(read: Reading, x: Session, i: Input)
    requires Scheduled(x) && Tracked(x) && (i.Completes? ==> i.id in x.outstanding)
    ensures Tracked(Next(read, x, i))
  {
    if i.Completes? {
      CompleteTracked(read, x, i.id, i.code, i.env);
    }
  }

  lemma {:induction false} AnyRunTracked(read: Reading, x: Session, inputs: seq<Input>)
    requires Orderly(read, x) && Tracked(x) && AnyRun(read, x, inputs)
    ensures Tracked(After(read, x, inputs))
  {
    if inputs != [] {
      var init, last := inputs[..|inputs| - 1], inputs[|inputs| - 1];
      AnyRunTracked(read, x, init);
      AnyRunOrderly(read, x, init);
      InputTracked(read, After(read, x, init), last);
    }
  }

  lemma StartTracked(rec0: LogRecord)
    ensures Tracked(Started(rec0))
  {
    assert FramesIn([ReadHttp]) == FramesIn([]) == [];
  }

  // How many calls set a timer.
  function Timers(cs: seq<Call>): nat {
    if cs == [] then 0 else Timers(cs[..|cs| - 1]) + if cs[|cs| - 1].PrepareTimer? then 1 else 0
  }

  function LiveFrames(ps: seq<Payload>): nat {
    if ps == [] then 0 else LiveFrames(ps[..|ps| - 1]) + if ps[|ps| - 1].Live? then 1 else 0
  }

  lemma {:induction false} OneTimerEach(cs: seq<Call>)
    requires Conversation(cs)
    ensures Timers(cs) == LiveFrames(FramesIn(cs)) + if cs[|cs| - 1].PrepareTimer? then 1 else 0
  {
    var init, last := cs[..|cs| - 1], cs[|cs| - 1];
    if init == [] {
      assert FramesIn(cs) == FramesIn(init) == [];
    } else {
      OneTimerEach(init);
      assert Follows(init[|init| - 1], last);
      var fs := FramesIn(cs);
      if last.WriteFrame? {
        assert fs[..|fs| - 1] == FramesIn(init) && fs[|fs| - 1] == last.payload;
      } else {
        assert fs == FramesIn(init);
      }
    }
  }

  // What a session waits for: the last call, and in the live stage the timer and the frame under
  // the ids kept for them.
  ghost predicate WaitsFor(y: Session) {
    var s := y.server;
    && y.outstanding <= y.made.Keys && s.calls != []
    && (s.timerid == 0 ==> forall id :: id in y.outstanding ==>
          y.made[id] == s.calls[|s.calls| - 1] && LastCall(s.currentOp, y.made[id]))
    && (s.timerid != 0 ==>
          && y.outstanding <= {s.timerid, s.websocketWriterid}
          && s.timerid in y.made && y.made[s.timerid] == PrepareTimer
          && s.websocketWriterid in y.made && y.made[s.websocketWriterid] == WriteFrame(Live(s.rec)))
  }

  lemma TrackedWaits(y: Session)
    requires Scheduled(y) && Tracked(y)
    ensures WaitsFor(y)
  {
    assert !y.failed || y.server.timerid != 0 || y.outstanding == {};
  }

  /** Wherever a run leads a new server, failures included: its calls follow one another as the
      stages of a connection do, its frames are those it called for, with one timer for each live
      one, and whatever completes next is the call it waits for. */
  lemma EveryCall(read: Reading, rec0: LogRecord, inputs: seq<Input>)
    requires AnyRun(read, Started(rec0), inputs)
    ensures var y := After(read, Started(rec0), inputs);
            && Conversation(y.server.calls) && y.server.frames == FramesIn(y.server.calls)
            && Timers(y.server.calls) == LiveFrames(y.server.frames)
            && WaitsFor(y)
  {
    StartOk(read, rec0);
    StartTracked(rec0);
    AnyRunOrderly(read, Started(rec0), inputs);
    AnyRunTracked(read, Started(rec0), inputs);
    var y := After(read, Started(rec0), inputs);
    TrackedWaits(y);
    OneTimerEach(y.server.calls);
  }

  // ---------------------------------------------------------------- requests and ends

  // A request that is refused: not a get, or both upgrade fields without what they need.
  predicate Refused(r: HttpRequest) {
    !r.isGet || (r.connection.Some? && r.upgrade.Some? && !(Upgrades(r) && r.hasKey))
  }

  /** When a connection ends: exactly by its timeout, by a call that failed, or by a request that is
      refused, and then without another call; it fails, with the call's code or -1, or throws for
      want of a key. */
  lemma EndsIff(read: Reading, s: Server, event: Event, env: Env)
    ensures var (t, r) := Yield(read, s, event, env);
            && (r != Waits <==>
                  || event.Timeout?
                  || (event.ChildTaskCompletion?
                      && (event.returnCode <= 0 || (s.currentOp == Read && Refused(env.request)))))
            && (r.Ends? ==>
                  && r.failed
                  && r.code == if event.ChildTaskCompletion? && event.returnCode <= 0 then event.returnCode else -1)
            && (r.Throws? ==> Upgrades(env.request) && env.request.isGet && !env.request.hasKey)
            && (r != Waits ==> t == s.(currentOp := t.currentOp))
            && (!event.ChildTaskCompletion? ==> t == s)
  {
  }

  /** What a request is answered with: a get without both upgrade fields with its resource, after
      which the next request is read; one with both, right, and a key with the switch to the
      WebSocket protocol; and any other with nothing. */
  lemma RequestAnswered(read: Reading, x: Session, id: nat, code: int, env: Env)
    requires Orderly(read, x) && id in x.outstanding && code > 0 && x.server.currentOp == Read
    ensures var y, r := Complete(read, x, id, code, env), env.request;
            var s, t := x.server, y.server;
            && (y.failed <==> Refused(r))
            && (y.failed ==> t.calls == s.calls && y.outstanding == {})
            && (r.isGet && (r.connection.None? || r.upgrade.None?) ==>
                  && t.calls == s.calls + [WriteHttp(Resource)] && y.outstanding == {s.localProcId}
                  && forall c, e :: c > 0 ==> AsksNext(t, Complete(read, y, s.localProcId, c, e).server))
            && (r.isGet && Upgrades(r) && r.hasKey ==>
                  t.calls == s.calls + [WriteHttp(SwitchingProtocols(Base64.Encode(env.digest)))] && Upgrading(read, y))
  {
    CompleteOk(read, x, id, code, env);
    var n := x.server.localProcId;
    assert Drawn(n, n + 1) == {n} && Drawn(n, n) == {};
  }

  ghost predicate AsksNext(s: Server, t: Server) { t.calls == s.calls + [ReadHttp] && t.currentOp == Read }
}
