/** The bandwidth monitor's server: it answers HTTP, replays the usage log over a WebSocket,
    marks the end of the history, and then sends live records at the pace of a timer. */
module MonitoringServer {
  import opened Wrappers
  import opened Bytes
  import opened LogRecords
  import Base64

  // What a frame is made from: a string of packed records, the marker, or the live record.
  datatype Payload = Chunk(bytes: seq<Byte>) | Marker | Live(rec: LogRecord)

  datatype State = Read | Write | WebsocketInit | WebsocketLogs | WebsocketLive

  datatype Reply = SwitchingProtocols(accept: string) | Resource

  // The calls the server makes of its children.
  datatype Call = ReadHttp | WriteHttp(reply: Reply) | WriteFrame(payload: Payload) | PrepareTimer

  // A request as far as the server looks at it.
  datatype HttpRequest = HttpRequest(isGet: bool, connection: Option<string>, upgrade: Option<string>, hasKey: bool)

  // What an event finds around the server: the request read and the digest of its key, the log
  // file, and the record of the present clock and speeds.
  datatype Env = Env(request: HttpRequest, digest: seq<Byte>, file: string, sample: LogRecord)

  datatype Event = ChildTaskCompletion(taskId: nat, returnCode: int) | Timeout | Other

  // What on_yield returns: nothing yet, or whether it failed and a code; or it throws.
  datatype Outcome = Waits | Ends(failed: bool, code: int) | Throws

  datatype Server = Server(
    currentOp: State,
    log: string,              // what is left to read of the log file
    localProcId: nat,         // the counter of local ids, which the children share
    timerid: nat,
    websocketWriterid: nat,
    writeOccurred: bool,
    timeoutOccurred: bool,
    rec: LogRecord,           // the record a live frame points to
    calls: seq<Call>,         // what has been called, in order
    frames: seq<Payload>)     // the frames among them

  function ChunksOf(cs: seq<seq<LogRecord>>): (r: seq<Payload>)
    ensures |r| == |cs|
  {
    if cs == [] then [] else [Chunk(PackAll(cs[0]))] + ChunksOf(cs[1..])
  }

  // The history frames of a log file.
  function History(read: Reading, text: string): seq<Payload> { ChunksOf(Chunks(read, text)) }

  ghost predicate AllLive(ps: seq<Payload>) { forall p :: p in ps ==> p.Live? }

  lemma HistoryStep(read: Reading, text: string)
    ensures var (rs, rest) := Take(read, text, 15);
            History(read, text) == if rs == [] then [] else [Chunk(PackAll(rs))] + History(read, rest)
  {
  }

  // One line of a chunk; rs is what was taken before it.
  lemma TakeStep(read: Reading, log: string, n: nat, rs: seq<LogRecord>)
    requires n > 0
    ensures var next, taken := read(log), Take(read, log, n);
            if next.None? || |next.value.1| >= |log| then taken == ([], log)
            else
              var (r, rest) := next.value;
              if r.None? then taken == Take(read, rest, n)
              else
                && rs + taken.0 == rs + [r.value] + Take(read, rest, n - 1).0
                && taken.1 == Take(read, rest, n - 1).1
  {
  }

  /** One chunk's worth of records, packed, and the text left. */
  method NextChunk(read: Reading, text: string) returns (chunkData: seq<Byte>, log: string)
    ensures log == Take(read, text, 15).1 && chunkData == PackAll(Take(read, text, 15).0)
  {
    var count := 0;
    ghost var rs, chunk: seq<LogRecord> := [], Take(read, text, 15).0;
    ghost var end := Take(read, text, 15).1;
    chunkData, log := [], text;
    while count < 15
      invariant count == |rs| <= 15 && chunkData == PackAll(rs)
      invariant rs + Take(read, log, 15 - count).0 == chunk && Take(read, log, 15 - count).1 == end
      decreases |log|
    {
      TakeStep(read, log, 15 - count, rs);
      var next := read(log);
      if next.None? || |next.value.1| >= |log| {
        break;
      }
      if next.value.0.Some? {
        var rec := next.value.0.value;
        chunkData := chunkData + Pack(rec);
        count := count + 1;
        rs := rs + [rec];
      }
      log := next.value.1;
    }
    assert Take(read, log, 15 - count) == ([], log) && rs + [] == rs;
  }

  // ---------------------------------------------------------------- one event

  function Issue(s: Server, call: Call): Server {
    s.(localProcId := s.localProcId + 1, calls := s.calls + [call],
       frames := s.frames + if call.WriteFrame? then [call.payload] else [])
  }

  predicate Upgrades(r: HttpRequest) { r.connection == Some("Upgrade") && r.upgrade == Some("websocket") }

  // A get request is answered with a resource, or with the switch to the WebSocket protocol.
  function HttpRead(s: Server, env: Env): (Server, Outcome) {
    var r := env.request;
    if !r.isGet then (s, Ends(true, -1))
    else if r.connection.None? || r.upgrade.None? then (Issue(s.(currentOp := Write), WriteHttp(Resource)), Waits)
    else if !Upgrades(r) then (s, Ends(true, -1))
    else if !r.hasKey then (s.(currentOp := WebsocketInit), Throws)
    else (Issue(s.(currentOp := WebsocketInit), WriteHttp(SwitchingProtocols(Base64.Encode(env.digest)))), Waits)
  }

  // The next chunk of the history, or the marker after the last.
  function SendLogs(read: Reading, s: Server): Server {
    var (rs, rest) := Take(read, s.log, 15);
    if rs == [] then Issue(s.(log := rest, currentOp := WebsocketLive), WriteFrame(Marker))
    else Issue(s.(log := rest), WriteFrame(Chunk(PackAll(rs))))
  }

  // A completion of the writer or the timer is noted; an unrelated one is not.
  function Mark(s: Server, taskId: nat): Server {
    if taskId == s.websocketWriterid then s.(writeOccurred := true)
    else if taskId == s.timerid then s.(timeoutOccurred := true)
    else s
  }

  // The next live frame, and the timer for the one after it.
  function LiveSent(s: Server, sample: LogRecord): Server {
    Issue(Issue(s.(rec := sample), PrepareTimer), WriteFrame(Live(sample)))
      .(writeOccurred := false, timeoutOccurred := false, timerid := s.localProcId, websocketWriterid := s.localProcId + 1)
  }

  function LiveStep(s: Server, taskId: nat, sample: LogRecord): Server {
    var m := Mark(s, taskId);
    if (m.writeOccurred && m.timeoutOccurred) || m.timerid == 0 then LiveSent(m, sample) else m
  }

  /** on_yield as a function of the server's state. */
  function Yield(read: Reading, s: Server, event: Event, env: Env): (Server, Outcome) {
    match event
    case Timeout => (s, Ends(true, -1))
    case Other => (s, Waits)
    case ChildTaskCompletion(id, code) =>
      if code <= 0 then (s, Ends(true, code))
      else
        match s.currentOp
        case Read => HttpRead(s, env)
        case Write => (Issue(s.(currentOp := Read), ReadHttp), Waits)
        case WebsocketInit => (SendLogs(read, s.(log := env.file, currentOp := WebsocketLogs)), Waits)
        case WebsocketLogs => (SendLogs(read, s), Waits)
        case WebsocketLive => (LiveStep(s, id, env.sample), Waits)
  }

  // ---------------------------------------------------------------- the server in place

  class BandwidthMonitoringServer {
    const read: Reading             // how a line of the log is read; the source's is ReadLine
    var currentOp: State
    var log: string
    var localProcId: nat
    var timerid: nat
    var websocketWriterid: nat
    var writeOccurred: bool
    var timeoutOccurred: bool
    var rec: LogRecord
    var calls: seq<Call>
    var frames: seq<Payload>

    ghost function View(): Server
      reads this
    {
      Server(currentOp, log, localProcId, timerid, websocketWriterid, writeOccurred, timeoutOccurred, rec, calls, frames)
    }

    // A server that has started to read its first request; rec0 is whatever its memory held.
    constructor (read0: Reading, rec0: LogRecord)
      ensures read == read0 && View() == Server(Read, "", 1, 0, 0, false, false, rec0, [ReadHttp], [])
    {
      read := read0;
      currentOp, log := Read, "";
      localProcId, timerid, websocketWriterid := 1, 0, 0;
      writeOccurred, timeoutOccurred := false, false;
      rec, calls, frames := rec0, [ReadHttp], [];
    }

    // Calls a function of a child; the result is the call's local id.
    method C(call: Call) returns (id: nat)
      modifies `localProcId, `calls, `frames
      ensures id == old(localProcId) && View() == Issue(old(View()), call)
    {
      id := localProcId;
      localProcId := localProcId + 1;
      calls := calls + [call];
      frames := frames + if call.WriteFrame? then [call.payload] else [];
    }

    method StageHttpRead(env: Env) returns (r: Outcome)
      modifies `currentOp, `localProcId, `calls, `frames
      ensures (View(), r) == HttpRead(old(View()), env)
    {
      var req := env.request;
      if !req.isGet {
        return Ends(true, -1);
      }
      if req.connection.Some? && req.upgrade.Some? {
        if req.connection.value != "Upgrade" || req.upgrade.value != "websocket" {
          return Ends(true, -1);
        }
        currentOp := WebsocketInit;
        if !req.hasKey {
          return Throws;
        }
        var _ := C(WriteHttp(SwitchingProtocols(Base64.Encode(env.digest))));
        return Waits;
      }
      var _ := C(WriteHttp(Resource));
      currentOp := Write;
      return Waits;
    }

    method StageWebsocketLogs()
      modifies `log, `currentOp, `localProcId, `calls, `frames
      ensures View() == SendLogs(read, old(View()))
    {
      var chunkData, rest := NextChunk(read, log);
      log := rest;
      if chunkData == [] {
        var _ := C(WriteFrame(Marker));
        currentOp := WebsocketLive;
      } else {
        var _ := C(WriteFrame(Chunk(chunkData)));
      }
    }

    method SendLive(sample: LogRecord)
      modifies `rec, `localProcId, `timerid, `websocketWriterid, `writeOccurred, `timeoutOccurred, `calls, `frames
      ensures View() == LiveSent(old(View()), sample)
    {
      rec := sample;
      var tid := C(PrepareTimer);
      var wid := C(WriteFrame(Live(rec)));
      writeOccurred := false;
      timeoutOccurred := false;
      timerid := tid;
      websocketWriterid := wid;
    }

    method StageWebsocketLive(taskId: nat, sample: LogRecord)
      modifies `rec, `localProcId, `timerid, `websocketWriterid, `writeOccurred, `timeoutOccurred, `calls, `frames
      ensures View() == LiveStep(old(View()), taskId, sample)
    {
      if taskId == websocketWriterid {
        writeOccurred := true;
      } else if taskId == timerid {
        timeoutOccurred := true;
      }
      if (writeOccurred && timeoutOccurred) || timerid == 0 {
        SendLive(sample);
      }
    }

    /** One event, exactly as Yield has it; what it means over whole runs is proved there. */
    method OnYield(event: Event, env: Env) returns (r: Outcome)
      modifies this
      ensures (View(), r) == Yield(read, old(View()), event, env)
    {
      match event {
        case Timeout => r := Ends(true, -1);
        case Other => r := Waits;
        case ChildTaskCompletion(taskId, code) =>
          if code <= 0 {
            return Ends(true, code);
          }
          r := Waits;
          match currentOp {
            case Read => r := StageHttpRead(env);
            case Write =>
              var _ := C(ReadHttp);
              currentOp := Read;
            case WebsocketInit =>
              log := env.file;
              currentOp := WebsocketLogs;
              StageWebsocketLogs();
            case WebsocketLogs => StageWebsocketLogs();
            case WebsocketLive => StageWebsocketLive(taskId, env.sample);
          }
      }
    }
  }
}
