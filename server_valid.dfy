/**
 * The orchestrator's handle invariant (`State.Valid`) is kept by every step of server.go:
 * a collaborator call, the four table operations, and so by every workflow.
 */
module ServerValid {
  import opened Wrappers
  import opened ServerSpec

  lemma AskKeepsValid(env: Env, st: State, c: Call)
    requires st.Valid()
    ensures Ask(env, st, c).0.Valid()
  {
    var s1 := Ask(env, st, c).0;
    assert s1.log == st.log + [Called(c, env.oracle(st.step, c))];
    forall k | k in s1.sending ensures Cancelled(s1.sending[k]) !in s1.log {
      assert Cancelled(st.sending[k]) !in st.log;
    }
    forall k | k in s1.receiving ensures Cancelled(s1.receiving[k].cancel) !in s1.log {
      assert Cancelled(st.receiving[k].cancel) !in st.log;
    }
  }

  /** A handle about to be made has not been invoked and belongs to no live session. */
  lemma FreshHandleUnused(st: State)
    requires st.Valid()
    ensures Unused(st, st.nextHandle)
    ensures Cancelled(st.nextHandle) !in st.log
  {
    forall k | k in st.sending ensures st.sending[k] != st.nextHandle {
      assert st.sending[k] < st.nextHandle;
    }
    forall k | k in st.receiving ensures st.receiving[k].cancel != st.nextHandle {
      assert st.receiving[k].cancel < st.nextHandle;
    }
  }

  /** No live session of `st` holds the handle `h`. */
  ghost predicate Unused(st: State, h: Handle)
  {
    && (forall k :: k in st.sending ==> st.sending[k] != h)
    && (forall k :: k in st.receiving ==> st.receiving[k].cancel != h)
  }

  /** Taking the next handle keeps the invariant, and that handle is unused and not yet invoked. */
  lemma TakeHandleKeepsValid(st: State)
    requires st.Valid()
    ensures st.(nextHandle := st.nextHandle + 1).Valid()
    ensures Unused(st, st.nextHandle) && Cancelled(st.nextHandle) !in st.log
  {
    FreshHandleUnused(st);
  }

  /** Invoking a handle that no live session holds keeps the invariant. */
  lemma CancelKeepsValid(st: State, h: Handle)
    requires st.Valid() && h < st.nextHandle && Unused(st, h)
    ensures Cancel(st, h).Valid()
  {
    var s2 := Cancel(st, h);
    forall k | k in s2.sending ensures Cancelled(s2.sending[k]) !in s2.log {
      assert Cancelled(st.sending[k]) !in st.log;
    }
    forall k | k in s2.receiving ensures Cancelled(s2.receiving[k].cancel) !in s2.log {
      assert Cancelled(st.receiving[k].cancel) !in st.log;
    }
  }

  /** Storing an unused, never invoked handle under a new sending key keeps the invariant. */
  lemma InsertSendingKeepsValid(st: State, key: string, h: Handle)
    requires st.Valid() && key !in st.sending && h < st.nextHandle && Unused(st, h) && Cancelled(h) !in st.log
    ensures st.(sending := st.sending[key := h]).Valid()
  {
  }

  /** Storing an unused, never invoked handle under a new receiving port keeps the invariant. */
  lemma InsertReceivingKeepsValid(st: State, port: string, s: Session)
    requires st.Valid() && port !in st.receiving && s.cancel < st.nextHandle && Unused(st, s.cancel) && Cancelled(s.cancel) !in st.log
    ensures st.(receiving := st.receiving[port := s]).Valid()
  {
  }

  lemma StartSendingKeepsValid(env: Env, st: State, playerIP: string, playerPort: string, reader: nat)
    requires st.Valid()
    ensures StartSending(env, st, playerIP, playerPort, reader).0.Valid()
  {
    var dst := SendKey(env, playerIP, playerPort);
    if dst !in st.sending {
      var h := st.nextHandle;
      TakeHandleKeepsValid(st);
      var s0 := st.(nextHandle := h + 1);
      AskKeepsValid(env, s0, UdpSend(h, dst, reader));
      var (s1, r) := Ask(env, s0, UdpSend(h, dst, reader));
      assert Unused(s1, h) && Cancelled(h) !in s1.log;
      if r.err.None? {
        InsertSendingKeepsValid(s1, dst, h);
      } else {
        CancelKeepsValid(s1, h);
      }
    }
  }

  lemma StopSendingKeepsValid(env: Env, st: State, playerIP: string, playerPort: string)
    requires st.Valid()
    ensures StopSending(env, st, playerIP, playerPort).0.Valid()
  {
    var dst := SendKey(env, playerIP, playerPort);
    if dst in st.sending {
      var h := st.sending[dst];
      var s2 := Cancel(st, h).(sending := st.sending - {dst});
      forall k | k in s2.sending ensures Cancelled(s2.sending[k]) !in s2.log {
        assert Cancelled(st.sending[k]) !in st.log;
      }
      forall k | k in s2.receiving ensures Cancelled(s2.receiving[k].cancel) !in s2.log {
        assert Cancelled(st.receiving[k].cancel) !in st.log;
      }
    }
  }

  lemma StartReceiveKeepsValid(env: Env, st: State, recorderIP: string, receivePort: string, writer: nat)
    requires st.Valid()
    ensures StartReceive(env, st, recorderIP, receivePort, writer).0.Valid()
  {
    if receivePort !in st.receiving {
      var h := st.nextHandle;
      TakeHandleKeepsValid(st);
      var s0 := st.(nextHandle := h + 1);
      AskKeepsValid(env, s0, UdpReceive(h, receivePort, writer));
      var s1 := Ask(env, s0, UdpReceive(h, receivePort, writer)).0;
      assert s1.log == st.log + [Called(UdpReceive(h, receivePort, writer), env.oracle(st.step, UdpReceive(h, receivePort, writer)))];
      assert Unused(s1, h) && Cancelled(h) !in s1.log;
      ReceiveOutcomeKeepsValid(s1, receivePort, h, writer);
    }
  }

  /** After the receive call, either storing its session or invoking its handle keeps the invariant. */
  lemma ReceiveOutcomeKeepsValid(s1: State, port: string, h: Handle, writer: nat)
    requires s1.Valid() && port !in s1.receiving && h < s1.nextHandle && Unused(s1, h) && Cancelled(h) !in s1.log
    ensures s1.(receiving := s1.receiving[port := Session(h, writer)]).Valid()
    ensures Cancel(s1, h).Valid()
  {
    InsertReceivingKeepsValid(s1, port, Session(h, writer));
    CancelKeepsValid(s1, h);
  }

  lemma StopReceiveKeepsValid(env: Env, st: State, receivePort: string)
    requires st.Valid()
    ensures StopReceive(env, st, receivePort).0.Valid()
  {
    if receivePort in st.receiving {
      var s := st.receiving[receivePort];
      var s2 := StopReceive(env, st, receivePort).0;
      assert s2.log == st.log + [Cancelled(s.cancel), Closed(s.writer)];
      forall k | k in s2.sending ensures Cancelled(s2.sending[k]) !in s2.log {
        assert Cancelled(st.sending[k]) !in st.log;
      }
      forall k | k in s2.receiving ensures Cancelled(s2.receiving[k].cancel) !in s2.log {
        assert Cancelled(st.receiving[k].cancel) !in st.log;
      }
    }
  }
}
