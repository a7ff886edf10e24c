/**
 * The media node (pkg/media/media.go): per port it receives a stream into a fresh cash and plays
 * that cash on a device, keeping the cancel function of both.
 */
module MediaService {
  import opened Wrappers
  import opened Words
  import opened Cashes
  import opened Nodes

  /** The collaborator calls: `client.Receive` and `device.Play`, both given the same cash. */
  datatype Call =
    | ClientReceive(ctx: Handle, port: string, cash: Cash<int16>)
    | DevicePlay(ctx: Handle, device: string, channels: uint32, rate: uint32, cash: Cash<int16>)

  /** How a StopReceive ends: with its error, or by calling a nil cancel function, which panics. */
  datatype StopOutcome = Returned(err: Option<string>) | NilCancelPanic

  /** The message both of Media's methods use. */
  function PortIsExist(p: string): string
  {
    "receive port is exist: " + p
  }

  /** The message names the port: two ports never share one. */
  lemma PortIsExistNamesPort(p: string, q: string)
    requires p != q
    ensures PortIsExist(p) != PortIsExist(q)
  {
    var n := |"receive port is exist: "|;
    assert PortIsExist(p)[n..] == p;
    assert PortIsExist(q)[n..] == q;
  }

  class Media {
    /** The `receive` field: the cancel function of each port's receive and play. */
    var receive: map<string, Handle>
    ghost var log: seq<Event<Call>>
    var step: nat
    var nextHandle: Handle
    const collaborators: (nat, Call) -> Reply

    ghost predicate Valid()
      reads this
    {
      Sound(receive, log, nextHandle)
    }

    /** NewMedia (media.go:73-82): no port is received. */
    constructor (collaborators: (nat, Call) -> Reply)
      ensures receive == map[] && log == [] && step == 0 && nextHandle == 0
      ensures this.collaborators == collaborators
      ensures Valid()
    {
      receive := map[];
      log := [];
      step := 0;
      nextHandle := 0;
      this.collaborators := collaborators;
    }

    method Ask(c: Call) returns (r: Reply)
      requires Valid()
      modifies this
      ensures r == collaborators(old(step), c)
      ensures log == old(log) + [Called(c, r)] && step == old(step) + 1
      ensures receive == old(receive) && nextHandle == old(nextHandle)
      ensures Valid()
    {
      CallKeepsSound(receive, log, nextHandle, c, collaborators(step, c));
      r := collaborators(step, c);
      log := log + [Called(c, r)];
      step := step + 1;
    }

    /**
     * StartReceive (media.go:29-55): a port in use is refused with "receive port is exist:
     * <port>". Otherwise a new, empty cash and a new cancel function drive Receive and then Play
     * over that same cash; the first error is returned after invoking the cancel function, and
     * only when both start is the cancel function stored under the port.
     */
    method StartReceive(p: string, device: string, channels: uint32, rate: uint32) returns (err: Option<string>, ghost cash: Cash?<int16>)
      requires Valid()
      modifies this
      ensures Valid()
      ensures p in old(receive) ==>
        err == Some(PortIsExist(p)) && cash == null
        && receive == old(receive) && log == old(log) && step == old(step) && nextHandle == old(nextHandle)
      ensures p !in old(receive) ==>
        var h := old(nextHandle);
        && cash != null && fresh(cash) && cash.Contents == [] && cash.Valid()
        && var r1 := collaborators(old(step), ClientReceive(h, p, cash));
           var r2 := collaborators(old(step) + 1, DevicePlay(h, device, channels, rate, cash));
           && err == (if r1.err.Some? then r1.err else r2.err)
           && nextHandle == h + 1
           && step == old(step) + (if r1.err.Some? then 1 else 2)
           && log == old(log) + [Called(ClientReceive(h, p, cash), r1)]
                + (if r1.err.Some? then [] else [Called(DevicePlay(h, device, channels, rate, cash), r2)])
                + (if err.Some? then [Cancelled(h)] else [])
           && receive == (if err.None? then old(receive)[p := h] else old(receive))
    {
      if p in receive {
        return Some(PortIsExist(p)), null;
      }
      var c := new Cash<int16>();
      cash := c;
      var h := nextHandle;
      nextHandle := nextHandle + 1;
      var r := Ask(ClientReceive(h, p, c));
      if r.err.None? {
        r := Ask(DevicePlay(h, device, channels, rate, c));
      }
      if r.err.Some? {
        DropKeepsSound(receive, log, h);
        log := log + [Cancelled(h)];
        return r.err, cash;
      }
      InsertKeepsSound(receive, log, h, p);
      receive := receive[p := h];
      return None, cash;
    }

    /**
     * StopReceive as written (media.go:58-70): the guard is inverted. A port in use is answered
     * with "receive port is exist: <port>" and stays in use; for any other port the missing
     * cancel function, a nil function value, is called.
     */
    method StopReceive(p: string) returns (outcome: StopOutcome)
      requires Valid()
      modifies this
      ensures Valid()
      ensures receive == old(receive) && log == old(log) && step == old(step) && nextHandle == old(nextHandle)
      ensures p in old(receive) <==> outcome == Returned(Some(PortIsExist(p)))
      ensures p !in old(receive) <==> outcome == NilCancelPanic
    {
      if p in receive {
        return Returned(Some(PortIsExist(p)));
      }
      return NilCancelPanic;
    }

    /**
     * StopReceive with the guard the other node services use: a port in use has its cancel
     * function invoked and is freed; any other port is answered with the same message.
     */
    method StopReceiveIntended(p: string) returns (outcome: StopOutcome)
      requires Valid()
      modifies this
      ensures Valid()
      ensures outcome.Returned?
      ensures step == old(step) && nextHandle == old(nextHandle)
      ensures p in old(receive) ==>
        outcome.err == None && receive == old(receive) - {p} && log == old(log) + [Cancelled(old(receive)[p])]
      ensures p !in old(receive) ==>
        outcome.err == Some(PortIsExist(p)) && receive == old(receive) && log == old(log)
    {
      if p !in receive {
        return Returned(Some(PortIsExist(p)));
      }
      RemoveKeepsSound(receive, log, nextHandle, p);
      log := log + [Cancelled(receive[p])];
      receive := receive - {p};
      return Returned(None);
    }
  }

  /** Collaborators that accept every call. */
  function AllAccept(step: nat, c: Call): (r: Reply)
    ensures r.err.None?
  {
    Reply(None, 0)
  }

  /**
   * With collaborators that accept everything, a receive that was started cannot be stopped as
   * written, and stopping a port never started panics.
   */
  method StopAsWrittenNeverFrees(p: string) returns (before: StopOutcome, after: StopOutcome, stillReceiving: bool)
    ensures before == NilCancelPanic
    ensures after == Returned(Some(PortIsExist(p)))
    ensures stillReceiving
  {
    var m := new Media(AllAccept);
    before := m.StopReceive(p);
    var err, _ := m.StartReceive(p, "default", 2, 44100);
    after := m.StopReceive(p);
    stillReceiving := p in m.receive;
  }

  /** With the intended guard the same sequence frees the port and the first stop is an error. */
  method StopIntendedFrees(p: string) returns (before: StopOutcome, after: StopOutcome, stillReceiving: bool)
    ensures before == Returned(Some(PortIsExist(p)))
    ensures after == Returned(None)
    ensures !stillReceiving
  {
    var m := new Media(AllAccept);
    before := m.StopReceiveIntended(p);
    var err, _ := m.StartReceive(p, "default", 2, 44100);
    after := m.StopReceiveIntended(p);
    stillReceiving := p in m.receive;
  }
}
