/**
 * pkg/storage/list.go: a FIFO of byte chunks over `container/list`. `Write` appends a chunk at the
 * back; `Read` copies the front chunk into the caller's buffer and removes it; `Close` drops the
 * list (the field becomes nil).
 */
module Storage {
  import opened Wrappers
  import opened Words

  type Bytes = seq<byte>

  /** The only error the queue reports: `io.EOF` when it is empty. */
  datatype IoError = EOF

  function Min(a: nat, b: nat): nat
  {
    if a <= b then a else b
  }

  /** The contents of `buf` after Go's `copy(buf, src)`. */
  function Copied(buf: Bytes, src: Bytes): (r: Bytes)
    ensures |r| == |buf|
    ensures forall i :: 0 <= i < |buf| ==> r[i] == if i < |src| then src[i] else buf[i]
  {
    var k := Min(|buf|, |src|);
    src[..k] + buf[k..]
  }

  class Queue {
    /** The `list` field: the chunks front to back, or `None` once `Close` has set it to nil. */
    var list: Option<seq<Bytes>>

    /** A queue over a new, empty `list.List`. */
    constructor ()
      ensures list == Some([])
    {
      list := Some([]);
    }

    predicate IsOpen()
      reads this
    {
      list.Some?
    }

    /** list.go:15-18. The `n` result is never set. */
    method Write(data: Bytes) returns (n: int, err: Option<IoError>)
      requires IsOpen()
      modifies this
      ensures list == Some(old(list.value) + [data])
      ensures n == 0 && err == None
    {
      list := Some(list.value + [data]);
      n, err := 0, None;
    }

    /** list.go:21-31. The front chunk is removed even when `data` was too short for all of it. */
    method Read(data: array<byte>) returns (n: int, err: Option<IoError>)
      requires IsOpen()
      modifies this, data
      ensures n == 0
      ensures old(list.value) == [] ==> err == Some(EOF) && list == old(list) && data[..] == old(data[..])
      ensures old(list.value) != [] ==>
                && err == None
                && list == Some(old(list.value)[1..])
                && data[..] == Copied(old(data[..]), old(list.value)[0])
    {
      n, err := 0, None;
      if list.value == [] {
        err := Some(EOF);
        return;
      }
      var front := list.value[0];
      var k := Min(data.Length, |front|);
      var i := 0;
      while i < k
        modifies data
        invariant 0 <= i <= k
        invariant forall j :: 0 <= j < i ==> data[j] == front[j]
        invariant forall j :: i <= j < data.Length ==> data[j] == old(data[j])
      {
        data[i] := front[i];
        i := i + 1;
      }
      assert data[..] == Copied(old(data[..]), front);
      list := Some(list.value[1..]);
    }

    /** list.go:33-36. */
    method Close() returns (err: Option<IoError>)
      modifies this
      ensures list == None && err == None
    {
      list := None;
      err := None;
    }
  }

  /** `size` zero bytes: a freshly made read buffer. */
  function Zeros(size: nat): (r: Bytes)
    ensures |r| == size && forall i :: 0 <= i < size ==> r[i] == 0
  {
    seq(size, _ => 0)
  }

  /**
   * The buffers that `k` successive `Read` calls fill when each reads into a fresh buffer of
   * `size` zero bytes; `None` stands for a call that returned `io.EOF`.
   */
  function Reads(q: seq<Bytes>, size: nat, k: nat): (r: seq<Option<Bytes>>)
    ensures |r| == k
    ensures forall i :: 0 <= i < k && r[i].Some? ==> |r[i].value| == size
  {
    if k == 0 then []
    else if q == [] then [None] + Reads(q, size, k - 1)
    else [Some(Copied(Zeros(size), q[0]))] + Reads(q[1..], size, k - 1)
  }

  /**
   * FIFO: after chunks `cs` are written to an empty queue, `|cs|` reads into buffers large enough
   * for each chunk deliver the chunks in order, each as a prefix of its buffer, and the next read
   * gets `io.EOF`.
   */
  lemma {:induction false} WritesThenReads(cs: seq<Bytes>, size: nat)
    requires forall i :: 0 <= i < |cs| ==> |cs[i]| <= size
    ensures var r := Reads(cs, size, |cs| + 1);
      && (forall i :: 0 <= i < |cs| ==> r[i].Some? && r[i].value[..|cs[i]|] == cs[i])
      && r[|cs|] == None
  {
    if cs != [] {
      WritesThenReads(cs[1..], size);
      var r := Reads(cs, size, |cs| + 1);
      assert r == [Some(Copied(Zeros(size), cs[0]))] + Reads(cs[1..], size, |cs|);
      forall i | 0 <= i < |cs| ensures r[i].Some? && r[i].value[..|cs[i]|] == cs[i] {
        if i > 0 {
          assert r[i] == Reads(cs[1..], size, |cs[1..]| + 1)[i - 1];
        }
      }
    }
  }

  /** One read, then the rest: how `Reads` takes one step. */
  lemma ReadsUnfold(q: seq<Bytes>, size: nat, k: nat)
    requires k > 0
    ensures Reads(q, size, k) ==
      [if q == [] then None else Some(Copied(Zeros(size), q[0]))] + Reads(if q == [] then q else q[1..], size, k - 1)
  {
  }

  /** Writes each chunk of `cs` in turn. */
  method WriteAll(q: Queue, cs: seq<Bytes>)
    requires q.IsOpen()
    modifies q
    ensures q.list == Some(old(q.list.value) + cs)
  {
    ghost var start := q.list.value;
    var i := 0;
    assert start + cs[..0] == start;
    while i < |cs|
      invariant 0 <= i <= |cs|
      invariant q.list == Some(start + cs[..i])
    {
      var _, _ := q.Write(cs[i]);
      assert start + cs[..i + 1] == start + cs[..i] + [cs[i]];
      i := i + 1;
    }
    assert cs[..|cs|] == cs;
  }

  /** Reads `k` times, each time into a fresh buffer of `size` zero bytes; `None` is an EOF. */
  method ReadAll(q: Queue, size: nat, k: nat) returns (r: seq<Option<Bytes>>)
    requires q.IsOpen()
    modifies q
    ensures r == Reads(old(q.list.value), size, k)
  {
    r := [];
    var j := 0;
    while j < k
      invariant 0 <= j <= k
      invariant q.IsOpen()
      invariant r + Reads(q.list.value, size, k - j) == Reads(old(q.list.value), size, k)
    {
      ghost var before := q.list.value;
      var data := new byte[size](_ => 0);
      assert data[..] == Zeros(size);
      var _, err := q.Read(data);
      var got := if err.Some? then None else Some(data[..]);
      ReadsUnfold(before, size, k - j);
      r := r + [got];
      j := j + 1;
    }
  }

  /**
   * The queue itself is FIFO: chunks `cs` written to a new queue, then read back `|cs| + 1`
   * times, each time into a fresh buffer of `size` zero bytes, give exactly `Reads`; so when
   * every chunk fits its buffer, each comes back in order as a prefix of its buffer, then EOF.
   */
  method WriteThenReadBack(cs: seq<Bytes>, size: nat) returns (r: seq<Option<Bytes>>)
    ensures r == Reads(cs, size, |cs| + 1)
    ensures (forall i :: 0 <= i < |cs| ==> |cs[i]| <= size) ==>
      && (forall i :: 0 <= i < |cs| ==> r[i].Some? && r[i].value[..|cs[i]|] == cs[i])
      && r[|cs|] == None
  {
    var q := new Queue();
    WriteAll(q, cs);
    assert q.list.value == cs;
    r := ReadAll(q, size, |cs| + 1);
    if forall i :: 0 <= i < |cs| ==> |cs[i]| <= size {
      WritesThenReads(cs, size);
    }
  }
}
