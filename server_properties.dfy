/**
 * What the orchestrator's workflows (pkg/server/server.go) promise, stated over the log of a run:
 * the calls made on the collaborators, in order, with the replies they gave. `t` below is always
 * the part of the log a run appended.
 */
module ServerProperties {
  import opened Wrappers
  import opened ServerSpec

  /** `t` is exactly the calls of `plan`, in that order, whatever they replied. */
  ghost predicate Made(t: seq<Event>, plan: seq<Call>)
  {
    |t| == |plan| && forall i :: 0 <= i < |t| ==> t[i].Called? && t[i].call == plan[i]
  }

  /** `t` runs the calls of `plan` in order and stops after the first one that failed. */
  ghost predicate UntilFirstFailure(t: seq<Event>, plan: seq<Call>)
  {
    && 0 < |t| <= |plan|
    && Made(t, plan[..|t|])
    && (forall i :: 0 <= i < |t| - 1 ==> t[i].reply.err.None?)
    && (|t| < |plan| ==> t[|t| - 1].reply.err.Some?)
  }

  /** The events a run appended to the log. */
  ghost function Appended(before: State, after: State): seq<Event>
  {
    if |before.log| <= |after.log| then after.log[|before.log|..] else []
  }

  lemma AppendedIs(before: State, after: State, evs: seq<Event>)
    requires after.log == before.log + evs
    ensures Appended(before, after) == evs
  {
    assert after.log[|before.log|..] == evs;
  }

  /**
   * startSending (server.go:233-249): a busy key gives ErrDeviceIsBusy and changes nothing;
   * otherwise a new handle drives `udp.Send` to the formatted `ip:port`, and the key is inserted
   * with it exactly when Send succeeds, the handle being invoked when it fails.
   */
  lemma StartSendingOutcomes(env: Env, st: State, ip: string, port: string, reader: nat)
    ensures var (st', err) := StartSending(env, st, ip, port, reader);
      var key, h := SendKey(env, ip, port), st.nextHandle;
      var t := Appended(st, st');
      && st'.receiving == st.receiving
      && (key in st.sending ==> st' == st && err == Some(DeviceIsBusy))
      && (key !in st.sending ==>
            && |t| >= 1 && t[0].Called? && t[0].call == UdpSend(h, key, reader) && err == t[0].reply.err
            && (err.None? ==> t == [t[0]] && st'.sending == st.sending[key := h])
            && (err.Some? ==> t == [t[0], Cancelled(h)] && st'.sending == st.sending))
  {
  }

  /** stopSending (server.go:251-263). */
  lemma StopSendingOutcomes(env: Env, st: State, ip: string, port: string)
    ensures var (st', err) := StopSending(env, st, ip, port);
      var key := SendKey(env, ip, port);
      && st'.receiving == st.receiving
      && (key in st.sending ==> err == None && Appended(st, st') == [Cancelled(st.sending[key])] && st'.sending == st.sending - {key})
      && (key !in st.sending ==> err == Some(DeviceNotFound) && st' == st)
  {
  }

  /** startReceive (server.go:265-283) is keyed by the port alone: the recorder's IP changes nothing. */
  lemma StartReceiveIgnoresRecorderIP(env: Env, st: State, ip1: string, ip2: string, port: string, writer: nat)
    ensures StartReceive(env, st, ip1, port, writer) == StartReceive(env, st, ip2, port, writer)
  {
  }

  /**
   * Starting a receive and then stopping it gives the table back as it was; the stored handle,
   * when invoked, cancels the receive and then closes the writer it was started with.
   */
  lemma ReceiveStartThenStop(env: Env, st: State, ip: string, port: string, writer: nat)
    ensures var (s1, e1) := StartReceive(env, st, ip, port, writer);
      var (s2, e2) := StopReceive(env, s1, port);
      && (port in st.receiving ==> e1 == Some(PortIsBusy))
      && (e1.None? ==> e2.None? && s2.receiving == st.receiving && Appended(s1, s2) == [Cancelled(st.nextHandle), Closed(writer)])
  {
    var (s1, e1) := StartReceive(env, st, ip, port, writer);
    if e1.None? {
      assert s1.receiving == st.receiving[port := Session(st.nextHandle, writer)];
      assert s1.receiving - {port} == st.receiving - {port};
    }
  }

  /** A second stop of the same port reports ErrPortNotFound and changes nothing. */
  lemma StopReceiveTwice(env: Env, st: State, port: string)
    ensures var (s1, _) := StopReceive(env, st, port);
      StopReceive(env, s1, port) == (s1, Some(PortNotFound))
  {
  }

  /** Sending to a player and then stopping gives the sending table back as it was. */
  lemma SendingStartThenStop(env: Env, st: State, ip: string, port: string, reader: nat)
    ensures var (s1, e1) := StartSending(env, st, ip, port, reader);
      var (s2, e2) := StopSending(env, s1, ip, port);
      e1.None? ==> e2.None? && s2.sending == st.sending && Appended(s1, s2) == [Cancelled(st.nextHandle)]
  {
    var (s1, e1) := StartSending(env, st, ip, port, reader);
    var key := SendKey(env, ip, port);
    if e1.None? {
      assert s1.sending == st.sending[key := st.nextHandle];
      assert s1.sending - {key} == st.sending - {key};
    }
  }

  /**
   * FilePlay (server.go:87-110) and the tables: it never touches `receiving`; on success the
   * player's key is newly sending with a fresh handle, and on any failure `sending` is as before,
   * including when the play step failed after sending had started.
   */
  lemma FilePlayTables(env: Env, st: State, file: string, ip: string, port: string, device: string)
    ensures var (st', res) := FilePlay(env, st, file, ip, port, device);
      var key := SendKey(env, ip, port);
      && st'.receiving == st.receiving
      && (res.err.Some? ==> st'.sending == st.sending)
      && (res.err.None? ==> key !in st.sending && st'.sending == st.sending[key := st.nextHandle])
  {
    var key := SendKey(env, ip, port);
    var (st', res) := FilePlay(env, st, file, ip, port, device);
    if key !in st.sending {
      assert st.sending[key := st.nextHandle] - {key} == st.sending;
    }
  }

  /** FilePlay first reads the file; when that fails its error is returned and nothing else happens. */
  lemma FilePlayReadStep(env: Env, st: State, file: string, ip: string, port: string, device: string)
    ensures var (st', res) := FilePlay(env, st, file, ip, port, device);
      var t := Appended(st, st');
      && 0 < |t| && t[0].Called? && t[0].call == ReadFile(file)
      && (t[0].reply.err.Some? ==> |t| == 1 && res.err == t[0].reply.err && st'.sending == st.sending && st'.receiving == st.receiving)
  {
  }

  /** Then the data is decoded; a decoding error is returned before anything else is started. */
  lemma FilePlayDecodeStep(env: Env, st: State, file: string, ip: string, port: string, device: string)
    ensures var (st', res) := FilePlay(env, st, file, ip, port, device);
      var t := Appended(st, st');
      0 < |t| && t[0].Called? && t[0].reply.err.None? ==>
        && 1 < |t| && t[1].Called? && t[1].call == AudioReader(t[0].reply.data)
        && (t[1].reply.err.Some? ==> |t| == 2 && res.err == t[1].reply.err && st'.sending == st.sending && st'.receiving == st.receiving)
  {
  }

  /** Then the player is asked to start receiving; its error is returned before any table change. */
  lemma FilePlayReceiveStartStep(env: Env, st: State, file: string, ip: string, port: string, device: string)
    ensures var (st', res) := FilePlay(env, st, file, ip, port, device);
      var t := Appended(st, st');
      1 < |t| && t[0].Called? && t[0].reply.err.None? && t[1].Called? && t[1].reply.err.None? ==>
        && 2 < |t| && t[2].Called? && t[2].call == PlayerReceiveStart(ip, port, None)
        && (t[2].reply.err.Some? ==> |t| == 3 && res.err == t[2].reply.err && st'.sending == st.sending && st'.receiving == st.receiving)
  {
  }

  /**
   * Then sending starts: a busy key returns ErrDeviceIsBusy, and a failing send returns its error
   * after invoking its handle. Either way the trace ends there, so the player's receive-start is
   * not undone.
   */
  lemma FilePlaySendStep(env: Env, st: State, file: string, ip: string, port: string, device: string)
    ensures var (st', res) := FilePlay(env, st, file, ip, port, device);
      var t := Appended(st, st');
      var key, h := SendKey(env, ip, port), st.nextHandle;
      2 < |t| && t[1].Called? && t[2].Called? && t[2].reply.err.None? ==>
        && (key in st.sending ==> |t| == 3 && res.err == Some(DeviceIsBusy) && st'.sending == st.sending)
        && (key !in st.sending ==>
              && 3 < |t| && t[3].Called? && t[3].call == UdpSend(h, key, t[1].reply.stream)
              && (t[3].reply.err.Some? ==> |t| == 5 && t[4] == Cancelled(h) && res.err == t[3].reply.err && st'.sending == st.sending))
  {
  }

  /**
   * Last the player is asked to play. When that fails, the player's receive is stopped and then
   * the local send cancelled, in that order, and the play error is returned whatever the
   * unwinding replied. As the trace ends there, storage is never cleared.
   */
  lemma FilePlayPlayStep(env: Env, st: State, file: string, ip: string, port: string, device: string)
    ensures var (st', res) := FilePlay(env, st, file, ip, port, device);
      var t := Appended(st, st');
      3 < |t| && t[1].Called? && t[2].Called? && t[3].Called? && t[3].call.UdpSend? && t[3].reply.err.None? ==>
        && 4 < |t| && t[4].Called? && t[4].call == PlayerPlay(ip, t[2].reply.uuid, device, t[1].reply.channels, t[1].reply.rate)
        && (t[4].reply.err.None? ==> |t| == 5 && res.err == None)
        && (t[4].reply.err.Some? ==>
              && |t| == 7 && t[5].Called? && t[5].call == PlayerReceiveStop(ip, port)
              && t[6] == Cancelled(st.nextHandle) && res.err == t[4].reply.err)
  {
  }

  /** FileStop (server.go:115-126): the four teardown steps in order, stopping at the first error. */
  lemma FileStopSteps(env: Env, st: State, ip: string, port: string, device: string, uuid: string)
    ensures var (st', err) := FileStop(env, st, ip, port, device, uuid);
      var key, t := SendKey(env, ip, port), Appended(st, st');
      && st'.receiving == st.receiving
      && (key !in st.sending ==> st' == st && err == Some(DeviceNotFound))
      && (key in st.sending ==>
            && t[0] == Cancelled(st.sending[key]) && st'.sending == st.sending - {key}
            && UntilFirstFailure(t[1..], [PlayerReceiveStop(ip, port), PlayerStop(ip, device), PlayerClearStorage(ip, uuid)])
            && err == t[|t| - 1].reply.err)
  {
    var key := SendKey(env, ip, port);
    if key !in st.sending {
      return;
    }
    var s1 := StopSending(env, st, ip, port).0;
    var e0 := Cancelled(st.sending[key]);
    var c1, c2, c3 := PlayerReceiveStop(ip, port), PlayerStop(ip, device), PlayerClearStorage(ip, uuid);
    var (s2, r1) := Ask(env, s1, c1);
    var ts: seq<Event>;
    if r1.err.Some? {
      AppendedIs(st, s2, [e0, Called(c1, r1)]);
      ts := [Called(c1, r1)];
    } else {
      var (s3, r2) := Ask(env, s2, c2);
      if r2.err.Some? {
        AppendedIs(st, s3, [e0, Called(c1, r1), Called(c2, r2)]);
        ts := [Called(c1, r1), Called(c2, r2)];
      } else {
        var (s4, r3) := Ask(env, s3, c3);
        AppendedIs(st, s4, [e0, Called(c1, r1), Called(c2, r2), Called(c3, r3)]);
        ts := [Called(c1, r1), Called(c2, r2), Called(c3, r3)];
      }
    }
    var t := Appended(st, FileStop(env, st, ip, port, device, uuid).0);
    assert t[1..] == ts;
    assert [c1, c2, c3][..|ts|] == seq(|ts|, i requires 0 <= i < |ts| => ts[i].call);
  }

  /**
   * StartFileRecoding (server.go:164-178): the writer is opened with the channel count cut to
   * 16 bits; a failing startReceive returns without closing it; the recorder is told to stream to
   * this server's own `ip:port`; and when the recorder fails the receive is stopped again.
   */
  lemma StartFileRecodingSteps(env: Env, st: State, recorderIP: string, device: string, channels: Words.uint32, rate: Words.uint32, port: string, file: string)
    ensures var (st', err) := StartFileRecoding(env, st, recorderIP, device, channels, rate, port, file);
      var t := Appended(st, st');
      var h := st.nextHandle;
      && st'.sending == st.sending
      && 0 < |t| && t[0].Called? && t[0].call == AudioWriter(file, channels % 0x1_0000, rate)
      && (t[0].reply.err.Some? ==> |t| == 1 && err == t[0].reply.err && st'.receiving == st.receiving)
      && (t[0].reply.err.None? && port in st.receiving ==> |t| == 1 && err == Some(PortIsBusy) && st'.receiving == st.receiving)
      && (t[0].reply.err.None? && port !in st.receiving ==>
            var w := t[0].reply.stream;
            && 1 < |t| && t[1].Called? && t[1].call == UdpReceive(h, port, w)
            && (t[1].reply.err.Some? ==> t[2..] == [Cancelled(h)] && err == t[1].reply.err && st'.receiving == st.receiving)
            && (t[1].reply.err.None? ==>
                  && 2 < |t| && t[2].Called? && t[2].call == RecorderStart(ReceiveAddr(env, port), recorderIP, device, channels, rate)
                  && err == t[2].reply.err
                  && (err.None? ==> |t| == 3 && st'.receiving == st.receiving[port := Session(h, w)])
                  && (err.Some? ==> t[3..] == [Cancelled(h), Closed(w)] && st'.receiving == st.receiving)))
  {
    var c0 := AudioWriter(file, Words.TruncateToUint16(channels), rate);
    var (s1, rw) := Ask(env, st, c0);
    if rw.err.Some? || port in st.receiving {
      AppendedIs(st, s1, [Called(c0, rw)]);
      return;
    }
    var h, w := st.nextHandle, rw.stream;
    var c1 := UdpReceive(h, port, w);
    var (s2, rr) := Ask(env, s1.(nextHandle := h + 1), c1);
    if rr.err.Some? {
      AppendedIs(st, Cancel(s2, h), [Called(c0, rw), Called(c1, rr), Cancelled(h)]);
      return;
    }
    var s2' := s2.(receiving := s2.receiving[port := Session(h, w)]);
    var c2 := RecorderStart(ReceiveAddr(env, port), recorderIP, device, channels, rate);
    var (s3, r3) := Ask(env, s2', c2);
    if r3.err.None? {
      AppendedIs(st, s3, [Called(c0, rw), Called(c1, rr), Called(c2, r3)]);
      return;
    }
    var s4 := StopReceive(env, s3, port).0;
    assert s4.receiving == st.receiving[port := Session(h, w)] - {port} == st.receiving;
    AppendedIs(st, s4, [Called(c0, rw), Called(c1, rr), Called(c2, r3), Cancelled(h), Closed(w)]);
  }

  /** The writer StartFileRecoding opens is closed only on the way out of a failing run, as its last step. */
  lemma StartFileRecodingClosesLast(env: Env, st: State, recorderIP: string, device: string, channels: Words.uint32, rate: Words.uint32, port: string, file: string)
    ensures var (st', err) := StartFileRecoding(env, st, recorderIP, device, channels, rate, port, file);
      var t := Appended(st, st');
      forall i :: 0 <= i < |t| && t[i].Closed? ==> err.Some? && i == |t| - 1
  {
    StartFileRecodingSteps(env, st, recorderIP, device, channels, rate, port, file);
    var (st', err) := StartFileRecoding(env, st, recorderIP, device, channels, rate, port, file);
    var t := Appended(st, st');
    assert forall i :: 2 <= i < |t| ==> t[i] == t[2..][i - 2];
    assert forall i :: 3 <= i < |t| ==> t[i] == t[3..][i - 3];
  }

  /**
   * StopFileRecoding (server.go:181-185) always returns nil and always asks the recorder to stop;
   * running it twice leaves the tables as running it once.
   */
  lemma StopFileRecodingSteps(env: Env, st: State, recorderIP: string, device: string, port: string)
    ensures var (s1, err) := StopFileRecoding(env, st, recorderIP, device, port);
      var (s2, err2) := StopFileRecoding(env, s1, recorderIP, device, port);
      var t := Appended(st, s1);
      && err == None && err2 == None
      && s1.receiving == st.receiving - {port} && s1.sending == st.sending
      && 0 < |t| && t[|t| - 1].Called? && t[|t| - 1].call == RecorderStop(recorderIP, device)
      && s2.receiving == s1.receiving && s2.sending == s1.sending
  {
  }

  /** The log PlayFromRecorder appends, event by event, in terms of the replies it was given. */
  lemma PlayFromRecorderLog(env: Env, st: State, ip: string, port: string, device: string, channels: Words.uint32, rate: Words.uint32, recorderIP: string, recorderDevice: string)
    returns (rs: Reply, rp: Reply, rr: Reply, unwind: seq<Event>)
    ensures var (st', res) := PlayFromRecorder(env, st, ip, port, device, channels, rate, recorderIP, recorderDevice);
      var c1 := PlayerReceiveStart(ip, port, None);
      var c2 := PlayerPlay(ip, rs.uuid, device, channels, rate);
      var c3 := RecorderStart(SendKey(env, ip, port), recorderIP, recorderDevice, channels, rate);
      && st'.sending == st.sending && st'.receiving == st.receiving && res.uuid == rs.uuid
      && (rs.err.Some? ==> Appended(st, st') == [Called(c1, rs)] && res.err == rs.err)
      && (rs.err.None? && rp.err.Some? ==>
            && Appended(st, st') == [Called(c1, rs), Called(c2, rp)] + unwind && res.err == rp.err
            && Made(unwind, [PlayerReceiveStop(ip, port), PlayerClearStorage(ip, rs.uuid)]))
      && (rs.err.None? && rp.err.None? && rr.err.None? ==>
            Appended(st, st') == [Called(c1, rs), Called(c2, rp), Called(c3, rr)] && res.err == None)
      && (rs.err.None? && rp.err.None? && rr.err.Some? ==>
            && Appended(st, st') == [Called(c1, rs), Called(c2, rp), Called(c3, rr)] + unwind && res.err == rr.err
            && Made(unwind, [PlayerReceiveStop(ip, port), PlayerStop(ip, device), PlayerClearStorage(ip, rs.uuid)]))
  {
    var c1 := PlayerReceiveStart(ip, port, None);
    var (s1, r1) := Ask(env, st, c1);
    rs, rp, rr, unwind := r1, r1, r1, [];
    if rs.err.Some? {
      AppendedIs(st, s1, [Called(c1, rs)]);
      return;
    }
    var c2 := PlayerPlay(ip, rs.uuid, device, channels, rate);
    var (s2, r2) := Ask(env, s1, c2);
    rp, rr := r2, r2;
    var stop, clear := PlayerReceiveStop(ip, port), PlayerClearStorage(ip, rs.uuid);
    if rp.err.Some? {
      var (s3, r3) := Ask(env, s2, stop);
      var (s4, r4) := Ask(env, s3, clear);
      unwind := [Called(stop, r3), Called(clear, r4)];
      AppendedIs(st, s4, [Called(c1, rs), Called(c2, rp)] + unwind);
      return;
    }
    var c3 := RecorderStart(SendKey(env, ip, port), recorderIP, recorderDevice, channels, rate);
    var (s3, r3) := Ask(env, s2, c3);
    rr := r3;
    if rr.err.None? {
      AppendedIs(st, s3, [Called(c1, rs), Called(c2, rp), Called(c3, rr)]);
      return;
    }
    var pstop := PlayerStop(ip, device);
    var (s4, r4) := Ask(env, s3, stop);
    var (s5, r5) := Ask(env, s4, pstop);
    var (s6, r6) := Ask(env, s5, clear);
    unwind := [Called(stop, r4), Called(pstop, r5), Called(clear, r6)];
    AppendedIs(st, s6, [Called(c1, rs), Called(c2, rp), Called(c3, rr)] + unwind);
  }

  /**
   * PlayFromRecorder (server.go:188-206): the tables are never touched and the uuid the player
   * gave is returned even on failure; the player is asked to receive, then to play, then the
   * recorder to stream to the player's `ip:port`, stopping at the first failure, whose error is
   * returned.
   */
  lemma PlayFromRecorderSteps(env: Env, st: State, ip: string, port: string, device: string, channels: Words.uint32, rate: Words.uint32, recorderIP: string, recorderDevice: string)
    ensures var (st', res) := PlayFromRecorder(env, st, ip, port, device, channels, rate, recorderIP, recorderDevice);
      var t := Appended(st, st');
      && st'.sending == st.sending && st'.receiving == st.receiving
      && 0 < |t| && t[0].Called? && t[0].call == PlayerReceiveStart(ip, port, None) && res.uuid == t[0].reply.uuid
      && (t[0].reply.err.Some? ==> |t| == 1 && res.err == t[0].reply.err)
      && (t[0].reply.err.None? ==>
            && 1 < |t| && t[1].Called? && t[1].call == PlayerPlay(ip, t[0].reply.uuid, device, channels, rate)
            && (t[1].reply.err.Some? ==> res.err == t[1].reply.err)
            && (t[1].reply.err.None? ==>
                  && 2 < |t| && t[2].Called?
                  && t[2].call == RecorderStart(SendKey(env, ip, port), recorderIP, recorderDevice, channels, rate)
                  && res.err == t[2].reply.err
                  && (res.err.None? ==> |t| == 3)))
  {
    var rs, rp, rr, unwind := PlayFromRecorderLog(env, st, ip, port, device, channels, rate, recorderIP, recorderDevice);
  }

  /**
   * PlayFromRecorder (server.go:196-205): a failing play is unwound by receive-stop and
   * clear-storage; a failing recorder start by receive-stop, player-stop and clear-storage, in
   * that order, and nothing else is asked.
   */
  lemma PlayFromRecorderUnwinds(env: Env, st: State, ip: string, port: string, device: string, channels: Words.uint32, rate: Words.uint32, recorderIP: string, recorderDevice: string)
    ensures var (st', res) := PlayFromRecorder(env, st, ip, port, device, channels, rate, recorderIP, recorderDevice);
      var t := Appended(st, st');
      1 < |t| && t[0].Called? && t[0].reply.err.None? && t[1].Called? ==>
        && (t[1].reply.err.Some? ==> Made(t[2..], [PlayerReceiveStop(ip, port), PlayerClearStorage(ip, t[0].reply.uuid)]))
        && (t[1].reply.err.None? && 2 < |t| && t[2].Called? && t[2].reply.err.Some? ==>
              Made(t[3..], [PlayerReceiveStop(ip, port), PlayerStop(ip, device), PlayerClearStorage(ip, t[0].reply.uuid)]))
  {
    var rs, rp, rr, unwind := PlayFromRecorderLog(env, st, ip, port, device, channels, rate, recorderIP, recorderDevice);
    var t := Appended(st, PlayFromRecorder(env, st, ip, port, device, channels, rate, recorderIP, recorderDevice).0);
    if rs.err.None? && rp.err.Some? {
      assert t[2..] == unwind;
    } else if rs.err.None? && rp.err.None? && rr.err.Some? {
      assert t[3..] == unwind;
    }
  }

  /** StopFromRecorder (server.go:209-215): all four teardown calls, in order, and a nil result. */
  lemma StopFromRecorderSteps(env: Env, st: State, ip: string, port: string, device: string, uuid: string, recorderIP: string, recorderDevice: string)
    ensures var (st', err) := StopFromRecorder(env, st, ip, port, device, uuid, recorderIP, recorderDevice);
      && err == None && st'.sending == st.sending && st'.receiving == st.receiving
      && Made(Appended(st, st'), [PlayerReceiveStop(ip, port), PlayerStop(ip, device), PlayerClearStorage(ip, uuid), RecorderStop(recorderIP, recorderDevice)])
  {
  }
}
