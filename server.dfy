/**
 * pkg/server/server.go: the orchestrator object. Its two tables are fields updated in place,
 * the collaborator calls go through `Ask`, and each workflow runs the Go code's steps with its
 * early returns. Every method is proved to leave the object in exactly the state (and to return
 * exactly the results) that the function of the same name in ServerSpec describes, and to keep
 * the handle invariant.
 */
module Server {
  import opened Wrappers
  import opened Words
  import opened Layouts
  import S = ServerSpec
  import V = ServerValid

  class AudioServer {
    /** `sending`: cancel handle per player `ip:port`. */
    var sending: map<string, S.Handle>
    /** `receiving`: cancel-and-close closure per local receive port. */
    var receiving: map<string, S.Session>
    /** What the orchestrator asked its collaborators, and which handles it invoked. */
    ghost var log: seq<S.Event>
    /** How many collaborator calls have been made. */
    var step: nat
    /** The next handle `context.WithCancel` makes. */
    var nextHandle: S.Handle
    /** `serverIP`, `addrLayout` and the collaborators, fixed by `NewServer`. */
    const env: S.Env

    ghost function Snapshot(): S.State
      reads this
    {
      S.State(sending, receiving, log, step, nextHandle)
    }

    ghost predicate Valid()
      reads this
    {
      Snapshot().Valid()
    }

    /** `NewServer` (server.go:299-322). The device layout is stored but never used, so it is left out. */
    constructor (serverIP: string, addrLayout: Layout, collaborators: (nat, S.Call) -> S.Reply)
      ensures Valid() && Snapshot() == S.Initial()
      ensures env == S.Env(serverIP, addrLayout, collaborators)
    {
      sending, receiving, log, step, nextHandle := map[], map[], [], 0, 0;
      env := S.Env(serverIP, addrLayout, collaborators);
    }

    /** One call on a collaborator. */
    method Ask(c: S.Call) returns (r: S.Reply)
      requires Valid()
      modifies this
      ensures Valid()
      ensures (Snapshot(), r) == S.Ask(env, old(Snapshot()), c)
    {
      V.AskKeepsValid(env, Snapshot(), c);
      r := env.oracle(step, c);
      log := log + [S.Called(c, r)];
      step := step + 1;
    }

    /**
     * server.go:137-139: `storage` is the uuid of a storage on the player to write into, `None`
     * (Go's nil) asking the player for a new one; it is passed on unchanged.
     */
    method PlayerReceiveStart(playerIP: string, playerPort: string, storage: Option<string>) returns (uuid: string, err: Option<S.Error>)
      requires Valid()
      modifies this
      ensures Valid()
      ensures var (st, r) := S.Ask(env, old(Snapshot()), S.PlayerReceiveStart(playerIP, playerPort, storage));
        Snapshot() == st && uuid == r.uuid && err == r.err
    {
      var r := Ask(S.PlayerReceiveStart(playerIP, playerPort, storage));
      uuid, err := r.uuid, r.err;
    }

    /** server.go:142-144. */
    method PlayerReceiveStop(playerIP: string, playerPort: string) returns (err: Option<S.Error>)
      requires Valid()
      modifies this
      ensures Valid()
      ensures (Snapshot(), err) == var (st, r) := S.Ask(env, old(Snapshot()), S.PlayerReceiveStop(playerIP, playerPort)); (st, r.err)
    {
      var r := Ask(S.PlayerReceiveStop(playerIP, playerPort));
      err := r.err;
    }

    /** server.go:148-150. */
    method PlayerPlay(playerIP: string, uuid: string, device: string, channels: uint32, rate: uint32) returns (err: Option<S.Error>)
      requires Valid()
      modifies this
      ensures Valid()
      ensures (Snapshot(), err) == var (st, r) := S.Ask(env, old(Snapshot()), S.PlayerPlay(playerIP, uuid, device, channels, rate)); (st, r.err)
    {
      var r := Ask(S.PlayerPlay(playerIP, uuid, device, channels, rate));
      err := r.err;
    }

    /** server.go:153-155. */
    method PlayerStop(playerIP: string, device: string) returns (err: Option<S.Error>)
      requires Valid()
      modifies this
      ensures Valid()
      ensures (Snapshot(), err) == var (st, r) := S.Ask(env, old(Snapshot()), S.PlayerStop(playerIP, device)); (st, r.err)
    {
      var r := Ask(S.PlayerStop(playerIP, device));
      err := r.err;
    }

    /** server.go:158-160. */
    method PlayerClearStorage(playerIP: string, uuid: string) returns (err: Option<S.Error>)
      requires Valid()
      modifies this
      ensures Valid()
      ensures (Snapshot(), err) == var (st, r) := S.Ask(env, old(Snapshot()), S.PlayerClearStorage(playerIP, uuid)); (st, r.err)
    {
      var r := Ask(S.PlayerClearStorage(playerIP, uuid));
      err := r.err;
    }

    /** server.go:224-226: the arguments reach `recorder.Start` with the destination first. */
    method RecorderStart(recorderIP: string, device: string, channels: uint32, rate: uint32, dstAddr: string) returns (err: Option<S.Error>)
      requires Valid()
      modifies this
      ensures Valid()
      ensures (Snapshot(), err) == var (st, r) := S.Ask(env, old(Snapshot()), S.RecorderStart(dstAddr, recorderIP, device, channels, rate)); (st, r.err)
    {
      var r := Ask(S.RecorderStart(dstAddr, recorderIP, device, channels, rate));
      err := r.err;
    }

    /** server.go:229-231. */
    method RecoderStop(recorderIP: string, device: string) returns (err: Option<S.Error>)
      requires Valid()
      modifies this
      ensures Valid()
      ensures (Snapshot(), err) == var (st, r) := S.Ask(env, old(Snapshot()), S.RecorderStop(recorderIP, device)); (st, r.err)
    {
      var r := Ask(S.RecorderStop(recorderIP, device));
      err := r.err;
    }

    /** server.go:233-249. */
    method StartSending(playerIP: string, playerPort: string, reader: nat) returns (err: Option<S.Error>)
      requires Valid()
      modifies this
      ensures Valid()
      ensures (Snapshot(), err) == S.StartSending(env, old(Snapshot()), playerIP, playerPort, reader)
    {
      V.StartSendingKeepsValid(env, Snapshot(), playerIP, playerPort, reader);
      var dstAddr := Sprintf(env.addrLayout, playerIP, playerPort);
      if dstAddr !in sending {
        var stop := nextHandle;
        nextHandle := nextHandle + 1;
        var r := env.oracle(step, S.UdpSend(stop, dstAddr, reader));
        log, step := log + [S.Called(S.UdpSend(stop, dstAddr, reader), r)], step + 1;
        err := r.err;
        if err == None {
          sending := sending[dstAddr := stop];
          return;
        }
        log := log + [S.Cancelled(stop)];
        return;
      }
      err := Some(S.DeviceIsBusy);
    }

    /** server.go:251-263. */
    method StopSending(playerIP: string, playerPort: string) returns (err: Option<S.Error>)
      requires Valid()
      modifies this
      ensures Valid()
      ensures (Snapshot(), err) == S.StopSending(env, old(Snapshot()), playerIP, playerPort)
    {
      V.StopSendingKeepsValid(env, Snapshot(), playerIP, playerPort);
      var dstAddr := Sprintf(env.addrLayout, playerIP, playerPort);
      if dstAddr in sending {
        log := log + [S.Cancelled(sending[dstAddr])];
        sending := sending - {dstAddr};
        return None;
      }
      err := Some(S.DeviceNotFound);
    }

    /** server.go:265-283. */
    method StartReceive(recorderIP: string, receivePort: string, writer: nat) returns (err: Option<S.Error>)
      requires Valid()
      modifies this
      ensures Valid()
      ensures (Snapshot(), err) == S.StartReceive(env, old(Snapshot()), recorderIP, receivePort, writer)
    {
      V.StartReceiveKeepsValid(env, Snapshot(), recorderIP, receivePort, writer);
      if receivePort !in receiving {
        var stop := nextHandle;
        nextHandle := nextHandle + 1;
        var r := env.oracle(step, S.UdpReceive(stop, receivePort, writer));
        log, step := log + [S.Called(S.UdpReceive(stop, receivePort, writer), r)], step + 1;
        err := r.err;
        if err == None {
          receiving := receiving[receivePort := S.Session(stop, writer)];
          return;
        }
        log := log + [S.Cancelled(stop)];
        return;
      }
      err := Some(S.PortIsBusy);
    }

    /** server.go:285-296. */
    method StopReceive(receivePort: string) returns (err: Option<S.Error>)
      requires Valid()
      modifies this
      ensures Valid()
      ensures (Snapshot(), err) == S.StopReceive(env, old(Snapshot()), receivePort)
    {
      V.StopReceiveKeepsValid(env, Snapshot(), receivePort);
      if receivePort in receiving {
        var session := receiving[receivePort];
        log := log + [S.Cancelled(session.cancel), S.Closed(session.writer)];
        receiving := receiving - {receivePort};
        return None;
      }
      err := Some(S.PortNotFound);
    }

    /** server.go:87-110. */
    method FilePlay(file: string, playerIP: string, playerPort: string, device: string)
      returns (uuid: string, channels: uint16, rate: uint32, err: Option<S.Error>)
      requires Valid()
      modifies this
      ensures Valid()
      ensures (Snapshot(), S.FilePlayResult(uuid, channels, rate, err)) == S.FilePlay(env, old(Snapshot()), file, playerIP, playerPort, device)
    {
      uuid, channels, rate := "", 0, 0;
      var read := Ask(S.ReadFile(file));
      if read.err.Some? {
        err := read.err;
        return;
      }
      var decoded := Ask(S.AudioReader(read.data));
      channels, rate, err := decoded.channels, decoded.rate, decoded.err;
      if err.Some? {
        return;
      }
      uuid, err := PlayerReceiveStart(playerIP, playerPort, None);
      if err.Some? {
        return;
      }
      err := StartSending(playerIP, playerPort, decoded.stream);
      if err.Some? {
        return;
      }
      err := PlayerPlay(playerIP, uuid, device, channels, rate);
      if err.Some? {
        var _ := PlayerReceiveStop(playerIP, playerPort);
        var _ := StopSending(playerIP, playerPort);
      }
    }

    /** server.go:115-126. */
    method FileStop(playerIP: string, playerPort: string, device: string, uuid: string) returns (err: Option<S.Error>)
      requires Valid()
      modifies this
      ensures Valid()
      ensures (Snapshot(), err) == S.FileStop(env, old(Snapshot()), playerIP, playerPort, device, uuid)
    {
      err := StopSending(playerIP, playerPort);
      if err.Some? {
        return;
      }
      err := PlayerReceiveStop(playerIP, playerPort);
      if err.Some? {
        return;
      }
      err := PlayerStop(playerIP, device);
      if err.Some? {
        return;
      }
      err := PlayerClearStorage(playerIP, uuid);
    }

    /** server.go:164-178. */
    method StartFileRecoding(recorderIP: string, device: string, channels: uint32, rate: uint32, receivePort: string, file: string)
      returns (err: Option<S.Error>)
      requires Valid()
      modifies this
      ensures Valid()
      ensures (Snapshot(), err) == S.StartFileRecoding(env, old(Snapshot()), recorderIP, device, channels, rate, receivePort, file)
    {
      var wc := Ask(S.AudioWriter(file, TruncateToUint16(channels), rate));
      if wc.err.Some? {
        return wc.err;
      }
      err := StartReceive(recorderIP, receivePort, wc.stream);
      if err.Some? {
        return;
      }
      var receiveAddr := Sprintf(env.addrLayout, env.serverIP, receivePort);
      err := RecorderStart(recorderIP, device, channels, rate, receiveAddr);
      if err.Some? {
        var _ := StopReceive(receivePort);
      }
    }

    /** server.go:181-185. */
    method StopFileRecoding(recorderIP: string, device: string, receivePort: string) returns (err: Option<S.Error>)
      requires Valid()
      modifies this
      ensures Valid()
      ensures (Snapshot(), err) == S.StopFileRecoding(env, old(Snapshot()), recorderIP, device, receivePort)
    {
      var _ := StopReceive(receivePort);
      var _ := Ask(S.RecorderStop(recorderIP, device));
      return None;
    }

    /** server.go:188-206. */
    method PlayFromRecorder(playerIP: string, playerPort: string, device: string, channels: uint32, rate: uint32, recorderIP: string, recorderDevice: string)
      returns (uuid: string, err: Option<S.Error>)
      requires Valid()
      modifies this
      ensures Valid()
      ensures (Snapshot(), S.BridgeResult(uuid, err)) == S.PlayFromRecorder(env, old(Snapshot()), playerIP, playerPort, device, channels, rate, recorderIP, recorderDevice)
    {
      uuid, err := PlayerReceiveStart(playerIP, playerPort, None);
      if err.Some? {
        return;
      }
      err := PlayerPlay(playerIP, uuid, device, channels, rate);
      if err.Some? {
        var _ := PlayerReceiveStop(playerIP, playerPort);
        var _ := PlayerClearStorage(playerIP, uuid);
        return;
      }
      var dstAddr := Sprintf(env.addrLayout, playerIP, playerPort);
      err := RecorderStart(recorderIP, recorderDevice, channels, rate, dstAddr);
      if err.Some? {
        var _ := PlayerReceiveStop(playerIP, playerPort);
        var _ := PlayerStop(playerIP, device);
        var _ := PlayerClearStorage(playerIP, uuid);
      }
    }

    /** server.go:209-215. */
    method StopFromRecorder(playerIP: string, playerPort: string, device: string, uuid: string, recorderIP: string, recorderDevice: string)
      returns (err: Option<S.Error>)
      requires Valid()
      modifies this
      ensures Valid()
      ensures (Snapshot(), err) == S.StopFromRecorder(env, old(Snapshot()), playerIP, playerPort, device, uuid, recorderIP, recorderDevice)
    {
      var _ := PlayerReceiveStop(playerIP, playerPort);
      var _ := PlayerStop(playerIP, device);
      var _ := PlayerClearStorage(playerIP, uuid);
      var _ := RecoderStop(recorderIP, recorderDevice);
      return None;
    }
  }
}
