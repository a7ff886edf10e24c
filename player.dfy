/**
 * The player node (pkg/player/player.go): per UDP port it receives a stream into a fresh storage
 * list and plays that list on a device, keeping the cancel function of both goroutines.
 */
module PlayerService {
  import opened Wrappers
  import opened Words
  import opened Storage
  import opened Nodes

  /** The collaborator calls: `udp.Receive` and `device.Play`, both given the same list. */
  datatype Call =
    | UdpReceive(ctx: Handle, port: string, list: Queue)
    | DevicePlay(ctx: Handle, device: string, channels: uint32, rate: uint32, list: Queue)

  class Player {
    /** The `port` field: the cancel function of the port's receive and play. */
    var port: map<string, Handle>
    ghost var log: seq<Event<Call>>
    /** The number of collaborator calls made so far. */
    var step: nat
    var nextHandle: Handle
    /** The `udp` and `device` collaborators, by the reply to the n-th call. */
    const collaborators: (nat, Call) -> Reply

    ghost predicate Valid()
      reads this
    {
      Sound(port, log, nextHandle)
    }

    /** NewPlayer (player.go:79-91): no port is in use. */
    constructor (collaborators: (nat, Call) -> Reply)
      ensures port == map[] && log == [] && step == 0 && nextHandle == 0
      ensures this.collaborators == collaborators
      ensures Valid()
    {
      port := map[];
      log := [];
      step := 0;
      nextHandle := 0;
      this.collaborators := collaborators;
    }

    method Ask(c: Call) returns (r: Reply)
      requires Valid()
      modifies this
      ensures r == collaborators(old(step), c)
      ensures log == old(log) + [Called(c, r)] && step == old(step) + 1
      ensures port == old(port) && nextHandle == old(nextHandle)
      ensures Valid()
    {
      CallKeepsSound(port, log, nextHandle, c, collaborators(step, c));
      r := collaborators(step, c);
      log := log + [Called(c, r)];
      step := step + 1;
    }

    /**
     * StartPlay (player.go:35-60): a port in use is refused with "<port> is exist". Otherwise a
     * new list and a new cancel function drive Receive and then Play over that same list; the
     * first error is returned after invoking the cancel function, and only when both start is
     * the cancel function stored under the port. The response is sent exactly on success.
     */
    method StartPlay(p: string, device: string, channels: uint32, rate: uint32) returns (out: bool, err: Option<string>, ghost list: Queue?)
      requires Valid()
      modifies this
      ensures Valid()
      ensures out <==> err.None?
      ensures p in old(port) ==>
        err == Some(p + " is exist") && list == null
        && port == old(port) && log == old(log) && step == old(step) && nextHandle == old(nextHandle)
      ensures p !in old(port) ==>
        var h := old(nextHandle);
        && list != null && fresh(list) && list.list == Some([])
        && var r1 := collaborators(old(step), UdpReceive(h, p, list));
           var r2 := collaborators(old(step) + 1, DevicePlay(h, device, channels, rate, list));
           && err == (if r1.err.Some? then r1.err else r2.err)
           && nextHandle == h + 1
           && step == old(step) + (if r1.err.Some? then 1 else 2)
           && log == old(log) + [Called(UdpReceive(h, p, list), r1)]
                + (if r1.err.Some? then [] else [Called(DevicePlay(h, device, channels, rate, list), r2)])
                + (if err.Some? then [Cancelled(h)] else [])
           && port == (if err.None? then old(port)[p := h] else old(port))
    {
      if p in port {
        return false, Some(p + " is exist"), null;
      }
      var q := new Queue();
      list := q;
      var h := nextHandle;
      nextHandle := nextHandle + 1;
      var r := Ask(UdpReceive(h, p, q));
      if r.err.Some? {
        DropKeepsSound(port, log, h);
        log := log + [Cancelled(h)];
        return false, r.err, list;
      }
      r := Ask(DevicePlay(h, device, channels, rate, q));
      if r.err.Some? {
        DropKeepsSound(port, log, h);
        log := log + [Cancelled(h)];
        return false, r.err, list;
      }
      InsertKeepsSound(port, log, h, p);
      port := port[p := h];
      return true, None, list;
    }

    /**
     * StopPlay (player.go:63-76): a port in use has its cancel function invoked and is freed;
     * an unknown port is refused, with the same "<port> is exist" message StartPlay uses.
     */
    method StopPlay(p: string) returns (out: bool, err: Option<string>)
      requires Valid()
      modifies this
      ensures Valid()
      ensures out <==> err.None?
      ensures step == old(step) && nextHandle == old(nextHandle)
      ensures p in old(port) ==>
        err == None && port == old(port) - {p} && log == old(log) + [Cancelled(old(port)[p])]
      ensures p !in old(port) ==>
        err == Some(p + " is exist") && port == old(port) && log == old(log)
    {
      if p !in port {
        return false, Some(p + " is exist");
      }
      RemoveKeepsSound(port, log, nextHandle, p);
      log := log + [Cancelled(port[p])];
      port := port - {p};
      return true, None;
    }
  }
}
