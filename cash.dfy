/**
 * pkg/cash/cash.go: a singly linked FIFO of sample chunks with `top` and `back` pointers.
 * `Pop` advances `top` but never resets `back`, so once the list has been emptied `back` still
 * points at the last element popped; the next `Push` links the new element after that stale
 * element and also makes it `top`, so the abstract contents stay FIFO.
 *
 * The source holds `[]int16` chunks; the class is generic in the sample type so that the byte cash
 * of pkg/client/client.go can use it too.
 */
module Cashes {
  import opened Wrappers

  /** One list cell: a chunk and the cell after it. */
  class Element<T> {
    var data: seq<T>
    var next: Element?<T>

    constructor (data: seq<T>)
      ensures this.data == data && next == null
    {
      this.data := data;
      next := null;
    }
  }

  class Cash<T> {
    var top: Element?<T>
    var back: Element?<T>

    /** The chunks from `top` onwards, front first. */
    ghost var Contents: seq<seq<T>>
    /** The cells holding `Contents`, in list order. */
    ghost var nodes: seq<Element<T>>
    /** Every cell the cash has allocated, including popped ones `back` may still point at. */
    ghost var Repr: set<object>

    ghost predicate Valid()
      reads this, Repr
    {
      && (forall i :: 0 <= i < |nodes| ==> nodes[i] in Repr)
      && (back != null ==> back in Repr)
      && |nodes| == |Contents|
      && (forall i :: 0 <= i < |nodes| ==> nodes[i].data == Contents[i])
      && (forall i :: 0 <= i < |nodes| - 1 ==> nodes[i].next == nodes[i + 1])
      && (forall i, j :: 0 <= i < j < |nodes| ==> nodes[i] != nodes[j])
      && (nodes == [] ==> top == null)
      && (nodes != [] ==> top == nodes[0] && back == nodes[|nodes| - 1] && back.next == null)
    }

    /** cash.go:36-38: both pointers nil. */
    constructor ()
      ensures Valid() && fresh(Repr)
      ensures Contents == [] && top == null && back == null
    {
      top, back := null, null;
      Contents, nodes, Repr := [], [], {};
    }

    /** cash.go:10-24. */
    method Push(data: seq<T>)
      requires Valid()
      modifies this, Repr
      ensures Valid() && fresh(Repr - old(Repr))
      ensures Contents == old(Contents) + [data]
      ensures back != null && back.data == data && back.next == null && fresh(back)
      ensures old(Contents) == [] ==> top == back
      ensures old(Contents) != [] ==> top == old(top)
    {
      var e := new Element(data);
      if back != null {
        back.next := e;
      }
      back := e;
      if top == null {
        top := e;
      }
      nodes, Contents, Repr := nodes + [e], Contents + [data], Repr + {e};
    }

    /** cash.go:27-33: `None` is the nil slice returned when `top` is nil. */
    method Pop() returns (data: Option<seq<T>>)
      requires Valid()
      modifies this
      ensures Valid() && Repr == old(Repr)
      ensures back == old(back)
      ensures old(Contents) == [] ==> data == None && Contents == [] && top == null
      ensures old(Contents) != [] ==> data == Some(old(Contents)[0]) && Contents == old(Contents)[1..]
      ensures |old(Contents)| == 1 ==> top == null && back != null
    {
      data := None;
      if top != null {
        data := Some(top.data);
        top := top.next;
        nodes, Contents := nodes[1..], Contents[1..];
      }
    }
  }

  /**
   * Emptying the cash and pushing again goes through the stale `back` pointer, yet the chunks
   * come out in the order they went in.
   */
  method StaleBackKeepsOrder<T>(a: seq<T>, b: seq<T>, c: seq<T>) returns (r: seq<Option<seq<T>>>)
    ensures r == [Some(a), None, Some(b), Some(c), None]
  {
    var cash := new Cash<T>();
    cash.Push(a);
    var x1 := cash.Pop();
    var x2 := cash.Pop();
    cash.Push(b);
    cash.Push(c);
    var x3 := cash.Pop();
    var x4 := cash.Pop();
    var x5 := cash.Pop();
    r := [x1, x2, x3, x4, x5];
  }
}
