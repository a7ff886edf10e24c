/**
 * The audio client (pkg/client/client.go): a pull of devices, each fed from a connection through
 * its own cash. One goroutine pushes what the connection delivers, another pops and writes.
 */
module AudioClient {
  import opened Wrappers
  import opened Words
  import opened Cashes

  /** A playback device; `written` is every chunk its Write was given, in order. */
  class Device {
    var written: seq<seq<byte>>

    constructor ()
      ensures written == []
    {
      written := [];
    }

    method Write(samples: seq<byte>)
      modifies this
      ensures written == old(written) + [samples]
    {
      written := written + [samples];
    }
  }

  /** The `receive` struct: a connection, by identity, and the cash between it and the device. */
  datatype Receive = Receive(connection: nat, cash: Cash<byte>)

  /** Add's error, `fmt.Errorf("device is exist: %v", connection)`: it names the connection. */
  datatype AddError = DeviceIsExist(connection: nat)

  /** The chunks a play loop writes: those that are neither nil nor empty, in order. */
  function NonEmpty(chunks: seq<seq<byte>>): (r: seq<seq<byte>>)
    ensures |r| <= |chunks|
    ensures forall i :: 0 <= i < |r| ==> |r[i]| > 0
    ensures (forall i :: 0 <= i < |chunks| ==> |chunks[i]| > 0) ==> r == chunks
  {
    if chunks == [] then []
    else (if |chunks[0]| > 0 then [chunks[0]] else []) + NonEmpty(chunks[1..])
  }

  /** Dropping empty chunks commutes with splitting the stream anywhere. */
  lemma {:induction false} NonEmptyAppend(a: seq<seq<byte>>, b: seq<seq<byte>>)
    ensures NonEmpty(a + b) == NonEmpty(a) + NonEmpty(b)
  {
    if a != [] {
      assert (a + b)[0] == a[0];
      assert (a + b)[1..] == a[1..] + b;
      NonEmptyAppend(a[1..], b);
    } else {
      assert a + b == b;
    }
  }

  class Client {
    /** The `pull` field. */
    var pull: map<Device, Receive>

    /** NewClient (client.go:78-82): an empty pull. */
    constructor ()
      ensures pull == map[]
    {
      pull := map[];
    }

    /**
     * Add (client.go:33-42): a device already in the pull is refused, naming the connection,
     * and the pull is unchanged; otherwise the device is fed from that connection and cash.
     */
    method Add(device: Device, connection: nat, cash: Cash<byte>) returns (err: Option<AddError>)
      modifies this
      ensures device in old(pull) ==> err == Some(DeviceIsExist(connection)) && pull == old(pull)
      ensures device !in old(pull) ==> err == None && pull == old(pull)[device := Receive(connection, cash)]
    {
      if device in pull {
        return Some(DeviceIsExist(connection));
      }
      pull := pull[device := Receive(connection, cash)];
      return None;
    }
  }

  /**
   * The receiving loop (client.go:52-62), for the chunks the connection delivered before the
   * context ended: each is pushed onto the cash, in the order it arrived.
   */
  method Receiving(cash: Cash<byte>, delivered: seq<seq<byte>>)
    requires cash.Valid()
    modifies cash, cash.Repr
    ensures cash.Valid() && fresh(cash.Repr - old(cash.Repr))
    ensures cash.Contents == old(cash.Contents) + delivered
  {
    var k := 0;
    while k < |delivered|
      invariant 0 <= k <= |delivered|
      invariant cash.Valid() && fresh(cash.Repr - old(cash.Repr))
      invariant cash.Contents == old(cash.Contents) + delivered[..k]
    {
      cash.Push(delivered[k]);
      assert delivered[..k + 1] == delivered[..k] + [delivered[k]];
      k := k + 1;
    }
    assert delivered[..k] == delivered;
  }

  /** Writing one more chunk of the stream drops it or appends it. */
  lemma NonEmptyStep(s: seq<seq<byte>>, n: nat)
    requires n < |s|
    ensures NonEmpty(s[..n + 1]) == NonEmpty(s[..n]) + NonEmpty([s[n]])
    ensures s[n..][1..] == s[n + 1..]
  {
    assert s[..n + 1] == s[..n] + [s[n]];
    NonEmptyAppend(s[..n], [s[n]]);
  }

  /** What one round does to the stream position `n` of the play loop. */
  lemma PlayStep(start: seq<seq<byte>>, before: seq<seq<byte>>, n: nat, pending: seq<seq<byte>>, soFar: seq<seq<byte>>,
                 contents: seq<seq<byte>>, written: seq<seq<byte>>)
    requires n <= |start| && pending == start[n..] && soFar == before + NonEmpty(start[..n])
    requires pending == [] ==> contents == [] && written == soFar
    requires pending != [] ==> contents == pending[1..] && written == soFar + NonEmpty([pending[0]])
    ensures var m := if n < |start| then n + 1 else n;
      contents == start[m..] && written == before + NonEmpty(start[..m])
  {
    if n < |start| {
      NonEmptyStep(start, n);
    }
  }

  /** One round of the play loop: pop, and write what came out unless it is nil or empty. */
  method PlayRound(device: Device, cash: Cash<byte>)
    requires cash.Valid() && device !in cash.Repr
    modifies device, cash
    ensures cash.Valid() && cash.Repr == old(cash.Repr)
    ensures old(cash.Contents) == [] ==> cash.Contents == [] && device.written == old(device.written)
    ensures old(cash.Contents) != [] ==>
      && cash.Contents == old(cash.Contents)[1..]
      && device.written == old(device.written) + NonEmpty([old(cash.Contents)[0]])
  {
    var samples := cash.Pop();
    if samples.Some? && |samples.value| > 0 {
      device.Write(samples.value);
    }
  }

  /**
   * The play loop (client.go:64-75), for the rounds it ran before the context ended. So the
   * device gets the first `rounds` chunks of the cash, empty ones dropped, and the cash keeps
   * the rest.
   */
  method Play(device: Device, cash: Cash<byte>, rounds: nat)
    requires cash.Valid() && device !in cash.Repr
    modifies device, cash
    ensures cash.Valid() && cash.Repr == old(cash.Repr)
    ensures var n := if rounds < |old(cash.Contents)| then rounds else |old(cash.Contents)|;
      && cash.Contents == old(cash.Contents)[n..]
      && device.written == old(device.written) + NonEmpty(old(cash.Contents)[..n])
  {
    ghost var start := cash.Contents;
    ghost var before := device.written;
    ghost var n := 0;
    var k := 0;
    while k < rounds
      invariant 0 <= k <= rounds && n == (if k < |start| then k else |start|)
      invariant cash.Valid() && cash.Repr == old(cash.Repr) && device !in cash.Repr
      invariant cash.Contents == start[n..]
      invariant device.written == before + NonEmpty(start[..n])
    {
      ghost var pending, soFar := cash.Contents, device.written;
      PlayRound(device, cash);
      PlayStep(start, before, n, pending, soFar, cash.Contents, device.written);
      n := if n < |start| then n + 1 else n;
      k := k + 1;
    }
  }

  /**
   * A device fed from an empty cash: once the receiving loop has pushed what arrived and the
   * play loop has run as many rounds, the device has written every non-empty chunk, in order.
   */
  method ReceiveThenPlay(delivered: seq<seq<byte>>) returns (written: seq<seq<byte>>)
    ensures written == NonEmpty(delivered)
  {
    var cash := new Cash<byte>();
    var device := new Device();
    Receiving(cash, delivered);
    assert cash.Contents == delivered;
    Play(device, cash, |delivered|);
    assert delivered[..|delivered|] == delivered;
    assert device.written == [] + NonEmpty(delivered);
    written := device.written;
  }
}
