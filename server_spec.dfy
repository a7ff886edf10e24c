/**
 * pkg/server/server.go, as pure functions over the orchestrator's state: its two session tables
 * (`sending`, keyed by the player's `ip:port`, and `receiving`, keyed by the local port), the log
 * of what it asked its collaborators and which cancel handles it invoked, the number of
 * collaborator calls made so far and the next cancel handle to make.
 *
 * The collaborators (`audio`, `udp`, `player`, `recorder` and `ioutil.ReadFile`) are one oracle
 * `(n, call) -> reply`: the reply to the n-th collaborator call. Nothing is assumed about it.
 * Each workflow below follows the Go code step by step; the class in module Server runs the same
 * steps imperatively and is proved equal to these functions.
 */
module ServerSpec {
  import opened Wrappers
  import opened Words
  import opened Layouts

  /** The orchestrator's sentinel errors (server.go:13-18) and any error a collaborator returns. */
  datatype Error = DeviceIsBusy | DeviceNotFound | PortIsBusy | PortNotFound | Failure(message: string)
  {
    /** `err.Error()`. */
    function Message(): string
    {
      match this
      case DeviceIsBusy => "device is busy"
      case DeviceNotFound => "device not found"
      case PortIsBusy => "port is busy"
      case PortNotFound => "port not found"
      case Failure(m) => m
    }
  }

  /** A cancel function made by `context.WithCancel`, numbered in the order it was made. */
  type Handle = nat

  /** What `receiving` stores per port: a closure that cancels the receive and closes the writer. */
  datatype Session = Session(cancel: Handle, writer: nat)

  /** A call on a collaborator, with the arguments the orchestrator passes. */
  datatype Call =
    | ReadFile(file: string)
    | AudioReader(data: seq<byte>)
    | AudioWriter(file: string, writerChannels: uint16, rate: uint32)
    | UdpSend(ctx: Handle, host: string, reader: nat)
    | UdpReceive(ctx: Handle, port: string, writer: nat)
    | PlayerReceiveStart(ip: string, port: string, storage: Option<string>)
    | PlayerReceiveStop(ip: string, port: string)
    | PlayerPlay(ip: string, uuid: string, device: string, channels: uint32, rate: uint32)
    | PlayerStop(ip: string, device: string)
    | PlayerClearStorage(ip: string, uuid: string)
    | RecorderStart(destAddr: string, recorderIP: string, device: string, channels: uint32, rate: uint32)
    | RecorderStop(recorderIP: string, device: string)

  /**
   * A collaborator's answer: its error and whatever results the call returns (`data` for
   * ReadFile; a reader or writer id in `stream` and the format for AudioReader/AudioWriter;
   * `uuid` for PlayerReceiveStart). Fields a call does not return are ignored.
   */
  datatype Reply = Reply(err: Option<Error>, data: seq<byte>, stream: nat, uuid: string, channels: uint16, rate: uint32)

  /** One entry of the log: a collaborator call and its reply, a cancel, or a writer's `Close`. */
  datatype Event = Called(call: Call, reply: Reply) | Cancelled(handle: Handle) | Closed(writer: nat)

  /** The constants of a `server`: its own IP, its address layout and its collaborators. */
  datatype Env = Env(serverIP: string, addrLayout: Layout, oracle: (nat, Call) -> Reply)

  datatype State = State(sending: map<string, Handle>, receiving: map<string, Session>, log: seq<Event>, step: nat, nextHandle: Handle)
  {
    /** Handles are made once, never reused, and a live session's handle has not been invoked. */
    ghost predicate Valid()
    {
      && (forall i :: 0 <= i < |log| && log[i].Cancelled? ==> log[i].handle < nextHandle)
      && (forall k :: k in sending ==> sending[k] < nextHandle && Cancelled(sending[k]) !in log)
      && (forall k :: k in receiving ==> receiving[k].cancel < nextHandle && Cancelled(receiving[k].cancel) !in log)
      && (forall k1, k2 :: k1 in sending && k2 in sending && k1 != k2 ==> sending[k1] != sending[k2])
      && (forall k1, k2 :: k1 in receiving && k2 in receiving && k1 != k2 ==> receiving[k1].cancel != receiving[k2].cancel)
      && (forall k1, k2 :: k1 in sending && k2 in receiving ==> sending[k1] != receiving[k2].cancel)
    }
  }

  /** `NewServer` (server.go:299-322): both tables empty. */
  function Initial(): (st: State)
    ensures st.Valid() && st.sending == map[] && st.receiving == map[]
  {
    State(map[], map[], [], 0, 0)
  }

  /** Makes one collaborator call: logs it with the oracle's reply and returns that reply. */
  function Ask(env: Env, st: State, c: Call): (State, Reply)
  {
    var r := env.oracle(st.step, c);
    (st.(log := st.log + [Called(c, r)], step := st.step + 1), r)
  }

  /** Invokes a cancel handle. */
  function Cancel(st: State, h: Handle): State
  {
    st.(log := st.log + [Cancelled(h)])
  }

  /** The key of `sending`: `fmt.Sprintf(s.addrLayout, playerIP, playerPort)`. */
  function SendKey(env: Env, playerIP: string, playerPort: string): string
  {
    Sprintf(env.addrLayout, playerIP, playerPort)
  }

  /** server.go:233-249. */
  function StartSending(env: Env, st: State, playerIP: string, playerPort: string, reader: nat): (State, Option<Error>)
  {
    var dst := SendKey(env, playerIP, playerPort);
    if dst in st.sending then (st, Some(DeviceIsBusy))
    else
      var h := st.nextHandle;
      var (s1, r) := Ask(env, st.(nextHandle := h + 1), UdpSend(h, dst, reader));
      if r.err.None? then (s1.(sending := s1.sending[dst := h]), None)
      else (Cancel(s1, h), r.err)
  }

  /** server.go:251-263. */
  function StopSending(env: Env, st: State, playerIP: string, playerPort: string): (State, Option<Error>)
  {
    var dst := SendKey(env, playerIP, playerPort);
    if dst in st.sending then (Cancel(st, st.sending[dst]).(sending := st.sending - {dst}), None)
    else (st, Some(DeviceNotFound))
  }

  /** server.go:265-283. `recorderIP` is not used. */
  function StartReceive(env: Env, st: State, recorderIP: string, receivePort: string, writer: nat): (State, Option<Error>)
  {
    if receivePort in st.receiving then (st, Some(PortIsBusy))
    else
      var h := st.nextHandle;
      var (s1, r) := Ask(env, st.(nextHandle := h + 1), UdpReceive(h, receivePort, writer));
      if r.err.None? then (s1.(receiving := s1.receiving[receivePort := Session(h, writer)]), None)
      else (Cancel(s1, h), r.err)
  }

  /** server.go:285-296: the stored closure cancels the receive, then closes the writer. */
  function StopReceive(env: Env, st: State, receivePort: string): (State, Option<Error>)
  {
    if receivePort in st.receiving then
      var s := st.receiving[receivePort];
      (st.(log := st.log + [Cancelled(s.cancel), Closed(s.writer)], receiving := st.receiving - {receivePort}), None)
    else (st, Some(PortNotFound))
  }

  /** The results of `FilePlay`. */
  datatype FilePlayResult = FilePlayResult(uuid: string, channels: uint16, rate: uint32, err: Option<Error>)

  /** server.go:87-110. */
  function FilePlay(env: Env, st: State, file: string, playerIP: string, playerPort: string, device: string): (State, FilePlayResult)
  {
    var (s1, rf) := Ask(env, st, ReadFile(file));
    if rf.err.Some? then (s1, FilePlayResult("", 0, 0, rf.err)) else
    var (s2, rd) := Ask(env, s1, AudioReader(rf.data));
    if rd.err.Some? then (s2, FilePlayResult("", rd.channels, rd.rate, rd.err)) else
    var (s3, rs) := Ask(env, s2, PlayerReceiveStart(playerIP, playerPort, None));
    if rs.err.Some? then (s3, FilePlayResult(rs.uuid, rd.channels, rd.rate, rs.err)) else
    var (s4, es) := StartSending(env, s3, playerIP, playerPort, rd.stream);
    if es.Some? then (s4, FilePlayResult(rs.uuid, rd.channels, rd.rate, es)) else
    var (s5, rp) := Ask(env, s4, PlayerPlay(playerIP, rs.uuid, device, rd.channels, rd.rate));
    if rp.err.None? then (s5, FilePlayResult(rs.uuid, rd.channels, rd.rate, None)) else
    var (s6, _) := Ask(env, s5, PlayerReceiveStop(playerIP, playerPort));
    var (s7, _) := StopSending(env, s6, playerIP, playerPort);
    (s7, FilePlayResult(rs.uuid, rd.channels, rd.rate, rp.err))
  }

  /** server.go:115-126. */
  function FileStop(env: Env, st: State, playerIP: string, playerPort: string, device: string, uuid: string): (State, Option<Error>)
  {
    var (s1, e1) := StopSending(env, st, playerIP, playerPort);
    if e1.Some? then (s1, e1) else
    var (s2, r2) := Ask(env, s1, PlayerReceiveStop(playerIP, playerPort));
    if r2.err.Some? then (s2, r2.err) else
    var (s3, r3) := Ask(env, s2, PlayerStop(playerIP, device));
    if r3.err.Some? then (s3, r3.err) else
    var (s4, r4) := Ask(env, s3, PlayerClearStorage(playerIP, uuid));
    (s4, r4.err)
  }

  /** The address the recorder streams to: `fmt.Sprintf(s.addrLayout, s.serverIP, receivePort)`. */
  function ReceiveAddr(env: Env, receivePort: string): string
  {
    Sprintf(env.addrLayout, env.serverIP, receivePort)
  }

  /** server.go:164-178. */
  function StartFileRecoding(env: Env, st: State, recorderIP: string, device: string, channels: uint32, rate: uint32, receivePort: string, file: string): (State, Option<Error>)
  {
    var (s1, rw) := Ask(env, st, AudioWriter(file, TruncateToUint16(channels), rate));
    if rw.err.Some? then (s1, rw.err) else
    var (s2, e2) := StartReceive(env, s1, recorderIP, receivePort, rw.stream);
    if e2.Some? then (s2, e2) else
    var (s3, r3) := Ask(env, s2, RecorderStart(ReceiveAddr(env, receivePort), recorderIP, device, channels, rate));
    if r3.err.None? then (s3, None) else
    var (s4, _) := StopReceive(env, s3, receivePort);
    (s4, r3.err)
  }

  /** server.go:181-185: both steps run whatever they return; the result is always nil. */
  function StopFileRecoding(env: Env, st: State, recorderIP: string, device: string, receivePort: string): (State, Option<Error>)
  {
    var (s1, _) := StopReceive(env, st, receivePort);
    var (s2, _) := Ask(env, s1, RecorderStop(recorderIP, device));
    (s2, None)
  }

  /** The results of `PlayFromRecorder`. */
  datatype BridgeResult = BridgeResult(uuid: string, err: Option<Error>)

  /** server.go:188-206. */
  function PlayFromRecorder(env: Env, st: State, playerIP: string, playerPort: string, device: string, channels: uint32, rate: uint32, recorderIP: string, recorderDevice: string): (State, BridgeResult)
  {
    var (s1, rs) := Ask(env, st, PlayerReceiveStart(playerIP, playerPort, None));
    if rs.err.Some? then (s1, BridgeResult(rs.uuid, rs.err)) else
    var uuid := rs.uuid;
    var (s2, rp) := Ask(env, s1, PlayerPlay(playerIP, uuid, device, channels, rate));
    if rp.err.Some? then
      var (s3, _) := Ask(env, s2, PlayerReceiveStop(playerIP, playerPort));
      var (s4, _) := Ask(env, s3, PlayerClearStorage(playerIP, uuid));
      (s4, BridgeResult(uuid, rp.err))
    else
    var (s3, rr) := Ask(env, s2, RecorderStart(SendKey(env, playerIP, playerPort), recorderIP, recorderDevice, channels, rate));
    if rr.err.None? then (s3, BridgeResult(uuid, None)) else
    var (s4, _) := Ask(env, s3, PlayerReceiveStop(playerIP, playerPort));
    var (s5, _) := Ask(env, s4, PlayerStop(playerIP, device));
    var (s6, _) := Ask(env, s5, PlayerClearStorage(playerIP, uuid));
    (s6, BridgeResult(uuid, rr.err))
  }

  /** server.go:209-215: all four steps run whatever they return; the result is always nil. */
  function StopFromRecorder(env: Env, st: State, playerIP: string, playerPort: string, device: string, uuid: string, recorderIP: string, recorderDevice: string): (State, Option<Error>)
  {
    var (s1, _) := Ask(env, st, PlayerReceiveStop(playerIP, playerPort));
    var (s2, _) := Ask(env, s1, PlayerStop(playerIP, device));
    var (s3, _) := Ask(env, s2, PlayerClearStorage(playerIP, uuid));
    var (s4, _) := Ask(env, s3, RecorderStop(recorderIP, recorderDevice));
    (s4, None)
  }
}
