/**
 * What the node services (player, recorder, recoder, media) share: a table from a key to the
 * cancel function of the goroutines it started, and collaborators reached through interfaces.
 * A cancel function is a handle drawn from a counter; invoking it is an event of the log.
 */
module Nodes {
  import opened Wrappers

  /** A `context.CancelFunc`, by identity. */
  type Handle = nat

  /** What a collaborator returned: its error and, for a connection it opened, that connection. */
  datatype Reply = Reply(err: Option<string>, conn: nat)

  /** One observable effect: a collaborator call with its reply, or a cancel function invoked. */
  datatype Event<C> = Called(call: C, reply: Reply) | Cancelled(handle: Handle)

  /**
   * The handle discipline: every handle handed out is below `next`, the table only holds
   * handles that were never invoked, and no two keys share one.
   */
  ghost predicate Sound<K, C>(table: map<K, Handle>, log: seq<Event<C>>, next: Handle)
  {
    && (forall i :: 0 <= i < |log| && log[i].Cancelled? ==> log[i].handle < next)
    && (forall k :: k in table ==> table[k] < next && Cancelled(table[k]) !in log)
    && (forall k1, k2 :: k1 in table && k2 in table && table[k1] == table[k2] ==> k1 == k2)
  }

  /** Logging a collaborator call keeps the discipline. */
  lemma CallKeepsSound<K, C>(table: map<K, Handle>, log: seq<Event<C>>, next: Handle, c: C, r: Reply)
    requires Sound(table, log, next)
    ensures Sound(table, log + [Called(c, r)], next)
  {
    forall k | k in table
      ensures Cancelled(table[k]) !in log + [Called(c, r)]
    {
      assert Cancelled(table[k]) !in log;
    }
  }

  /** Storing the next handle under a free key, and moving the counter on, keeps it. */
  lemma InsertKeepsSound<K, C>(table: map<K, Handle>, log: seq<Event<C>>, next: Handle, k: K)
    requires Sound(table, log, next) && k !in table
    ensures Sound(table[k := next], log, next + 1)
  {
    forall i | 0 <= i < |log|
      ensures log[i] != Cancelled(next)
    {
      if log[i].Cancelled? {
        assert log[i].handle < next;
      }
    }
  }

  /** Invoking the next handle without storing it, and moving the counter on, keeps it. */
  lemma DropKeepsSound<K, C>(table: map<K, Handle>, log: seq<Event<C>>, next: Handle)
    requires Sound(table, log, next)
    ensures Sound(table, log + [Cancelled(next)], next + 1)
  {
    forall k | k in table
      ensures Cancelled(table[k]) !in log + [Cancelled(next)]
    {
      assert Cancelled(table[k]) !in log;
    }
  }

  /** Invoking a stored handle and deleting its key keeps it. */
  lemma RemoveKeepsSound<K, C>(table: map<K, Handle>, log: seq<Event<C>>, next: Handle, k: K)
    requires Sound(table, log, next) && k in table
    ensures Sound(table - {k}, log + [Cancelled(table[k])], next)
  {
    forall j | j in table - {k}
      ensures Cancelled(table[j]) !in log + [Cancelled(table[k])]
    {
      assert Cancelled(table[j]) !in log;
      assert table[j] != table[k];
    }
  }
}
