/**
 * The recorder node (pkg/recorder/recorder.go): per device it opens a UDP sender towards the
 * destination and records the device into it, keeping the cancel function of the recording.
 */
module RecorderService {
  import opened Wrappers
  import opened Words
  import opened Nodes

  /** The collaborator calls: `udp.TurnOnSender`, then `device.Record` into the sender it opened. */
  datatype Call =
    | TurnOnSender(destAddr: string)
    | DeviceRecord(ctx: Handle, device: string, channels: uint32, rate: uint32, destination: nat)

  class Recorder {
    /** The `recoding` field: the cancel function of each device being recorded. */
    var recoding: map<string, Handle>
    ghost var log: seq<Event<Call>>
    var step: nat
    var nextHandle: Handle
    const collaborators: (nat, Call) -> Reply

    ghost predicate Valid()
      reads this
    {
      Sound(recoding, log, nextHandle)
    }

    /** NewRecorder (recorder.go:65-75): no device is being recorded. */
    constructor (collaborators: (nat, Call) -> Reply)
      ensures recoding == map[] && log == [] && step == 0 && nextHandle == 0
      ensures this.collaborators == collaborators
      ensures Valid()
    {
      recoding := map[];
      log := [];
      step := 0;
      nextHandle := 0;
      this.collaborators := collaborators;
    }

    method Ask(c: Call) returns (r: Reply)
      requires Valid()
      modifies this
      ensures r == collaborators(old(step), c)
      ensures log == old(log) + [Called(c, r)] && step == old(step) + 1
      ensures recoding == old(recoding) && nextHandle == old(nextHandle)
      ensures Valid()
    {
      CallKeepsSound(recoding, log, nextHandle, c, collaborators(step, c));
      r := collaborators(step, c);
      log := log + [Called(c, r)];
      step := step + 1;
    }

    /**
     * StartRecord (recorder.go:28-47): a device being recorded is refused with "<device> is
     * busy". Otherwise the sender is opened first; when that fails its error is returned and no
     * cancel function exists yet. Then a new cancel function drives Record into that sender;
     * when Record fails it is invoked and the error returned, otherwise it is stored under the
     * device. The response is sent exactly on success.
     */
    method StartRecord(destAddr: string, device: string, channels: uint32, rate: uint32) returns (out: bool, err: Option<string>)
      requires Valid()
      modifies this
      ensures Valid()
      ensures out <==> err.None?
      ensures device in old(recoding) ==>
        err == Some(device + " is busy")
        && recoding == old(recoding) && log == old(log) && step == old(step) && nextHandle == old(nextHandle)
      ensures device !in old(recoding) ==>
        var r1 := collaborators(old(step), TurnOnSender(destAddr));
        if r1.err.Some? then
          err == r1.err && recoding == old(recoding) && nextHandle == old(nextHandle)
          && step == old(step) + 1 && log == old(log) + [Called(TurnOnSender(destAddr), r1)]
        else
          var h := old(nextHandle);
          var c2 := DeviceRecord(h, device, channels, rate, r1.conn);
          var r2 := collaborators(old(step) + 1, c2);
          && err == r2.err && nextHandle == h + 1 && step == old(step) + 2
          && log == old(log) + [Called(TurnOnSender(destAddr), r1), Called(c2, r2)] + (if err.Some? then [Cancelled(h)] else [])
          && recoding == (if err.None? then old(recoding)[device := h] else old(recoding))
    {
      if device in recoding {
        return false, Some(device + " is busy");
      }
      var r := Ask(TurnOnSender(destAddr));
      if r.err.Some? {
        return false, r.err;
      }
      var h := nextHandle;
      nextHandle := nextHandle + 1;
      r := Ask(DeviceRecord(h, device, channels, rate, r.conn));
      if r.err.None? {
        InsertKeepsSound(recoding, log, h, device);
        recoding := recoding[device := h];
        return true, None;
      }
      DropKeepsSound(recoding, log, h);
      log := log + [Cancelled(h)];
      return false, r.err;
    }

    /**
     * StopRecord (recorder.go:50-62): a device being recorded has its cancel function invoked
     * and is freed; otherwise "<device> is not exist" is returned.
     */
    method StopRecord(device: string) returns (out: bool, err: Option<string>)
      requires Valid()
      modifies this
      ensures Valid()
      ensures out <==> err.None?
      ensures step == old(step) && nextHandle == old(nextHandle)
      ensures device in old(recoding) ==>
        err == None && recoding == old(recoding) - {device} && log == old(log) + [Cancelled(old(recoding)[device])]
      ensures device !in old(recoding) ==>
        err == Some(device + " is not exist") && recoding == old(recoding) && log == old(log)
    {
      if device in recoding {
        RemoveKeepsSound(recoding, log, nextHandle, device);
        log := log + [Cancelled(recoding[device])];
        recoding := recoding - {device};
        return true, None;
      }
      return false, Some(device + " is not exist");
    }
  }
}
