/**
 * The recoder node (pkg/recoder/recoder.go): per destination address it opens a UDP sender and
 * has the device stream into it, keeping the cancel function of the stream.
 */
module RecoderService {
  import opened Wrappers
  import opened Words
  import opened Nodes

  /** The collaborator calls: `udp.TurnOnSender`, then `device.Recode` into the connection it opened. */
  datatype Call =
    | TurnOnSender(destAddr: string)
    | DeviceRecode(ctx: Handle, device: string, channels: uint32, rate: uint32, conn: nat)

  class Recoder {
    /** The `server` field: the cancel function of the stream to each destination. */
    var server: map<string, Handle>
    ghost var log: seq<Event<Call>>
    var step: nat
    var nextHandle: Handle
    const collaborators: (nat, Call) -> Reply

    ghost predicate Valid()
      reads this
    {
      Sound(server, log, nextHandle)
    }

    /** NewRecoder (recoder.go:69-79): no destination is being served. */
    constructor (collaborators: (nat, Call) -> Reply)
      ensures server == map[] && log == [] && step == 0 && nextHandle == 0
      ensures this.collaborators == collaborators
      ensures Valid()
    {
      server := map[];
      log := [];
      step := 0;
      nextHandle := 0;
      this.collaborators := collaborators;
    }

    method Ask(c: Call) returns (r: Reply)
      requires Valid()
      modifies this
      ensures r == collaborators(old(step), c)
      ensures log == old(log) + [Called(c, r)] && step == old(step) + 1
      ensures server == old(server) && nextHandle == old(nextHandle)
      ensures Valid()
    {
      CallKeepsSound(server, log, nextHandle, c, collaborators(step, c));
      r := collaborators(step, c);
      log := log + [Called(c, r)];
      step := step + 1;
    }

    /**
     * StartRecode (recoder.go:28-51): a destination already served is refused with
     * "<destAddr> is exist". Otherwise the sender is opened first and its error returned with
     * no cancel function made; then a new cancel function drives Recode into that connection,
     * is invoked when Recode fails and is stored under the destination when it succeeds.
     */
    method StartRecode(destAddr: string, device: string, channels: uint32, rate: uint32) returns (out: bool, err: Option<string>)
      requires Valid()
      modifies this
      ensures Valid()
      ensures out <==> err.None?
      ensures destAddr in old(server) ==>
        err == Some(destAddr + " is exist")
        && server == old(server) && log == old(log) && step == old(step) && nextHandle == old(nextHandle)
      ensures destAddr !in old(server) ==>
        var r1 := collaborators(old(step), TurnOnSender(destAddr));
        if r1.err.Some? then
          err == r1.err && server == old(server) && nextHandle == old(nextHandle)
          && step == old(step) + 1 && log == old(log) + [Called(TurnOnSender(destAddr), r1)]
        else
          var h := old(nextHandle);
          var c2 := DeviceRecode(h, device, channels, rate, r1.conn);
          var r2 := collaborators(old(step) + 1, c2);
          && err == r2.err && nextHandle == h + 1 && step == old(step) + 2
          && log == old(log) + [Called(TurnOnSender(destAddr), r1), Called(c2, r2)] + (if err.Some? then [Cancelled(h)] else [])
          && server == (if err.None? then old(server)[destAddr := h] else old(server))
    {
      if destAddr in server {
        return false, Some(destAddr + " is exist");
      }
      var r := Ask(TurnOnSender(destAddr));
      if r.err.Some? {
        return false, r.err;
      }
      var h := nextHandle;
      nextHandle := nextHandle + 1;
      r := Ask(DeviceRecode(h, device, channels, rate, r.conn));
      if r.err.Some? {
        DropKeepsSound(server, log, h);
        log := log + [Cancelled(h)];
        return false, r.err;
      }
      InsertKeepsSound(server, log, h, destAddr);
      server := server[destAddr := h];
      return true, None;
    }

    /**
     * StopRecode (recoder.go:54-66): a served destination has its cancel function invoked and
     * is freed; otherwise "<destAddr> is not exist" is returned.
     */
    method StopRecode(destAddr: string) returns (out: bool, err: Option<string>)
      requires Valid()
      modifies this
      ensures Valid()
      ensures out <==> err.None?
      ensures step == old(step) && nextHandle == old(nextHandle)
      ensures destAddr in old(server) ==>
        err == None && server == old(server) - {destAddr} && log == old(log) + [Cancelled(old(server)[destAddr])]
      ensures destAddr !in old(server) ==>
        err == Some(destAddr + " is not exist") && server == old(server) && log == old(log)
    {
      if destAddr !in server {
        return false, Some(destAddr + " is not exist");
      }
      RemoveKeepsSound(server, log, nextHandle, destAddr);
      log := log + [Cancelled(server[destAddr])];
      server := server - {destAddr};
      return true, None;
    }
  }
}
