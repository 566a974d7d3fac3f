/**
 * The echo session of the socket tests: a pump that polls one local socket,
 * echoes back whatever it reads, and adapts its polling interval — reset to
 * the floor on activity, grown by a factor up to a ceiling while idle, and
 * compensated by the duration of the previous cycle.
 *
 * Time, threads and sockets are not modelled: each loop iteration consumes one
 * `Cycle` record that says what the socket calls observed, and the sleep is
 * only computed, never taken.
 */
module Sockets {
  import opened Shared

  /** Size of the read buffer. */
  const BufferSize: nat := 65536
  /** Floor of the polling interval, in milliseconds. */
  const StatePollingMinTime: int := 10
  /** Ceiling of the polling interval, in milliseconds. */
  const StatePollingMaxTime: int := 5000

  /** A C# int: the range Convert.ToInt32 accepts without throwing. */
  type Int32 = x: int | -0x8000_0000 <= x < 0x8000_0000

  /** What one read can deliver: at most one buffer's worth of bytes. */
  type Chunk = s: seq<byte> | |s| <= BufferSize

  predicate InBounds(polltime: int)
  {
    StatePollingMinTime <= polltime <= StatePollingMaxTime
  }

  /**
   * The sleep before the next cycle: none when the previous cycle already took
   * longer than the interval, otherwise what is left of the interval but never
   * less than the floor.
   */
  function WaitTime(polltime: int, adjpolltime: int): (r: int)
    ensures r == 0 <==> adjpolltime > polltime
    ensures r != 0 ==> StatePollingMinTime <= r && polltime - adjpolltime <= r
    ensures r != 0 ==> r == polltime - adjpolltime || r == StatePollingMinTime
    ensures adjpolltime == polltime ==> r == StatePollingMinTime
    ensures StatePollingMinTime <= polltime && 0 <= adjpolltime ==> r <= polltime
  {
    if adjpolltime > polltime then 0
    else Max(polltime - adjpolltime, StatePollingMinTime)
  }

  /**
   * The rounded floating-point growth `round(1.1 * p)` is taken as a parameter:
   * all the model assumes of it is that it strictly increases every interval
   * within the bounds.
   */
  ghost predicate GrowthLaw(grow: int -> int)
  {
    forall p :: StatePollingMinTime <= p <= StatePollingMaxTime ==> p < grow(p)
  }

  /** The interval after an idle cycle: grown, then capped at the ceiling. */
  function Grow(polltime: int, grow: int -> int): (r: int)
    requires GrowthLaw(grow) && InBounds(polltime)
    ensures InBounds(r)
    ensures polltime <= r <= grow(polltime)
    ensures polltime < StatePollingMaxTime ==> polltime < r
    ensures r == grow(polltime) || r == StatePollingMaxTime
  {
    Min(grow(polltime), StatePollingMaxTime)
  }

  /** A socket that polls readable with nothing available has lost its peer. */
  predicate IsConnected(readable: bool, available: int)
  {
    !(readable && available == 0)
  }

  /** What the connectivity probe at the top of a cycle observed. */
  datatype Probe =
      /** Socket.Poll, Socket.Available and NetworkStream.DataAvailable all answered. */
    | Probed(readable: bool, available: int, dataAvailable: bool)
      /** Socket.Poll or Socket.Available threw: the connection flag stays false. */
    | PollFailed
      /** The probe answered but DataAvailable threw: the data flag stays false. */
    | DataAvailableFailed(readable: bool, available: int)

  /** The outcome of NetworkStream.Read: the bytes read, or an exception. */
  datatype ReadResult = Read(data: Chunk) | ReadFailed

  /**
   * One iteration of the communication loop as seen from outside: the probe,
   * the read (consulted only when data is available), whether the echo write
   * succeeded (consulted only when bytes were read), and the cycle's duration.
   */
  datatype Cycle = Cycle(probe: Probe, read: ReadResult, writeOk: bool, elapsedMs: Int32)

  /**
   * The pump's state: the two loop variables, whether the session's event is
   * set, and the bytes echoed back on the stream so far.
   */
  datatype PumpState = PumpState(polltime: int, adjpolltime: int, signalled: bool, written: seq<byte>)

  predicate ProbeConnected(p: Probe)
  {
    match p
    case Probed(readable, available, _) => IsConnected(readable, available)
    case PollFailed => false
    case DataAvailableFailed(readable, available) => IsConnected(readable, available)
  }

  predicate ProbeDataAvailable(p: Probe)
  {
    p.Probed? && p.dataAvailable
  }

  /** A cycle whose probe threw sets the event through the error handler. */
  predicate ProbeThrew(p: Probe)
  {
    !p.Probed?
  }

  /** The effect of one cycle on the pump state. */
  function Step(s: PumpState, c: Cycle, grow: int -> int): (r: PumpState)
    requires GrowthLaw(grow) && InBounds(s.polltime)
    ensures InBounds(r.polltime)
    ensures r.adjpolltime == c.elapsedMs
    ensures s.signalled ==> r.signalled
    ensures s.written <= r.written
  {
    var connected := ProbeConnected(c.probe);
    var afterProbe := s.(signalled := s.signalled || ProbeThrew(c.probe));
    var afterIo :=
      if !connected then
        afterProbe.(signalled := true)
      else if ProbeDataAvailable(c.probe) then
        match c.read
        case ReadFailed => afterProbe.(signalled := true)
        case Read(data) =>
          if |data| == 0 then afterProbe
          else afterProbe.(polltime := StatePollingMinTime,
                           written := if c.writeOk then s.written + data else s.written,
                           signalled := afterProbe.signalled || !c.writeOk)
      else
        afterProbe.(polltime := Grow(s.polltime, grow));
    afterIo.(adjpolltime := c.elapsedMs)
  }

  /** The loop: cycles run while the event is not set. */
  function Run(s: PumpState, trace: seq<Cycle>, grow: int -> int): (r: PumpState)
    requires GrowthLaw(grow) && InBounds(s.polltime)
    ensures InBounds(r.polltime)
    ensures s.written <= r.written
    ensures s.signalled ==> r.signalled
    decreases |trace|
  {
    if s.signalled || trace == [] then s
    else Run(Step(s, trace[0], grow), trace[1..], grow)
  }

  /** The state in which the communication thread starts. */
  function Initial(signalled: bool, written: seq<byte>): (s: PumpState)
  {
    PumpState(StatePollingMinTime, 0, signalled, written)
  }

  /** A connected cycle in which no data was available. */
  predicate IsIdle(c: Cycle)
  {
    c.probe.Probed? && IsConnected(c.probe.readable, c.probe.available) && !c.probe.dataAvailable
  }

  /** A connected cycle that read some bytes and echoed them back. */
  predicate IsEcho(c: Cycle)
  {
    && c.probe.Probed? && IsConnected(c.probe.readable, c.probe.available) && c.probe.dataAvailable
    && c.read.Read? && |c.read.data| > 0 && c.writeOk
  }

  /** All the bytes a sequence of reads delivered, in order. */
  function Received(trace: seq<Cycle>): (bytes: seq<byte>)
  {
    if trace == [] then []
    else (if trace[0].read.Read? then trace[0].read.data else []) + Received(trace[1..])
  }

  /** The per-cycle rules of the polling loop. */
  lemma CycleLaws(s: PumpState, c: Cycle, grow: int -> int)
    requires GrowthLaw(grow) && InBounds(s.polltime)
    ensures var r := Step(s, c, grow);
      && (!ProbeConnected(c.probe) ==> r.signalled && r.polltime == s.polltime && r.written == s.written)
      && (ProbeThrew(c.probe) ==> r.signalled)
      && (IsIdle(c) ==> r.polltime == Grow(s.polltime, grow) && r.signalled == s.signalled && r.written == s.written)
      && (IsEcho(c) ==> r.polltime == StatePollingMinTime && r.written == s.written + c.read.data && r.signalled == s.signalled)
      && (ProbeConnected(c.probe) && ProbeDataAvailable(c.probe) && c.read == Read([]) ==>
            r.polltime == s.polltime && r.written == s.written && r.signalled == s.signalled)
      && (ProbeConnected(c.probe) && ProbeDataAvailable(c.probe) && c.read.ReadFailed? ==> r.signalled && r.polltime == s.polltime)
  {
  }

  /** Running a trace one cycle longer takes one more step, unless the event was already set. */
  lemma {:induction false} RunSnoc(s: PumpState, trace: seq<Cycle>, c: Cycle, grow: int -> int)
    requires GrowthLaw(grow) && InBounds(s.polltime)
    ensures var r := Run(s, trace, grow);
      Run(s, trace + [c], grow) == if r.signalled then r else Step(r, c, grow)
    decreases |trace|
  {
    if s.signalled {
    } else if trace == [] {
      assert [] + [c] == [c];
    } else {
      assert (trace + [c])[1..] == trace[1..] + [c];
      RunSnoc(Step(s, trace[0], grow), trace[1..], c, grow);
    }
  }

  /**
   * Idle cycles never set the event, echo nothing, and never shrink the
   * interval; each one grows it by at least one millisecond until the ceiling.
   */
  lemma {:induction false} IdleBackoff(s: PumpState, trace: seq<Cycle>, grow: int -> int)
    requires GrowthLaw(grow) && InBounds(s.polltime) && !s.signalled
    requires forall i :: 0 <= i < |trace| ==> IsIdle(trace[i])
    ensures var r := Run(s, trace, grow);
      && !r.signalled && r.written == s.written
      && s.polltime <= r.polltime
      && Min(s.polltime + |trace|, StatePollingMaxTime) <= r.polltime
    decreases |trace|
  {
    if trace != [] {
      var t := Step(s, trace[0], grow);
      CycleLaws(s, trace[0], grow);
      IdleBackoff(t, trace[1..], grow);
    }
  }

  /**
   * The adaptive backoff law: after any number of idle cycles, the first cycle
   * that echoes data brings the interval back to the floor and echoes exactly
   * the bytes it read.
   */
  lemma BackoffThenReset(s: PumpState, idle: seq<Cycle>, c: Cycle, grow: int -> int)
    requires GrowthLaw(grow) && InBounds(s.polltime) && !s.signalled
    requires forall i :: 0 <= i < |idle| ==> IsIdle(idle[i])
    requires IsEcho(c)
    ensures var r := Run(s, idle + [c], grow);
      && !r.signalled
      && r.polltime == StatePollingMinTime
      && r.written == s.written + c.read.data
  {
    IdleBackoff(s, idle, grow);
    RunSnoc(s, idle, c, grow);
    CycleLaws(Run(s, idle, grow), c, grow);
  }

  /** Tunnel transparency: a run of echo cycles writes back every byte read, in order. */
  lemma {:induction false} EchoPreservesOrder(s: PumpState, trace: seq<Cycle>, grow: int -> int)
    requires GrowthLaw(grow) && InBounds(s.polltime) && !s.signalled
    requires forall i :: 0 <= i < |trace| ==> IsEcho(trace[i])
    ensures var r := Run(s, trace, grow);
      && !r.signalled
      && r.written == s.written + Received(trace)
      && (trace != [] ==> r.polltime == StatePollingMinTime)
    decreases |trace|
  {
    if trace != [] {
      var t := Step(s, trace[0], grow);
      CycleLaws(s, trace[0], grow);
      EchoPreservesOrder(t, trace[1..], grow);
      assert s.written + Received(trace) == s.written + trace[0].read.data + Received(trace[1..]);
    }
  }

  /** Once a cycle finds the peer gone, or its probe throws, the loop runs no further cycle. */
  lemma PeerGoneEndsLoop(s: PumpState, c: Cycle, rest: seq<Cycle>, grow: int -> int)
    requires GrowthLaw(grow) && InBounds(s.polltime) && !s.signalled
    requires !ProbeConnected(c.probe) || ProbeThrew(c.probe)
    ensures Run(s, [c] + rest, grow) == Step(s, c, grow)
    ensures Step(s, c, grow).signalled
  {
    assert ([c] + rest)[1..] == rest;
    CycleLaws(s, c, grow);
  }

  /**
   * Every sleep the thread computes is zero or at least the floor, and, while
   * cycle durations are not negative, never longer than the ceiling.
   */
  lemma {:induction false} SleepBounds(s: PumpState, trace: seq<Cycle>, grow: int -> int)
    requires GrowthLaw(grow) && InBounds(s.polltime) && 0 <= s.adjpolltime
    requires forall i :: 0 <= i < |trace| ==> 0 <= trace[i].elapsedMs
    ensures var r := Run(s, trace, grow);
      var w := WaitTime(r.polltime, r.adjpolltime);
      0 <= r.adjpolltime && (w == 0 || StatePollingMinTime <= w <= StatePollingMaxTime)
    decreases |trace|
  {
    if !s.signalled && trace != [] {
      SleepBounds(Step(s, trace[0], grow), trace[1..], grow);
    }
  }

  /**
   * The test session: the client socket and its stream (present until
   * Disconnect), the event that stops the loop, and what was written back.
   */
  class EchoSession {
    /** m_client is not null. */
    var hasClient: bool
    /** m_stream is not null. */
    var hasStream: bool
    /** m_mre is set. */
    var signalled: bool
    /** The bytes written to m_stream. */
    var written: seq<byte>
    /** How many times Close was called on the stream and on the client. */
    var streamCloses: nat
    var clientCloses: nat

    ghost predicate Valid()
      reads this
    {
      hasClient == hasStream
    }

    /** A session over a connected client; starting the thread is left to the caller. */
    constructor ()
      ensures Valid() && hasClient && hasStream && !signalled && written == []
      ensures streamCloses == 0 && clientCloses == 0
    {
      hasClient, hasStream := true, true;
      signalled := false;
      written := [];
      streamCloses, clientCloses := 0, 0;
    }

    /** HandleError: the message is only logged; the event is set. */
    method HandleError()
      modifies this`signalled
      ensures signalled
    {
      signalled := true;
    }

    /** The body of one loop iteration, reusing the thread's read buffer. */
    method RunCycle(buffer: array<byte>, polltime: int, adjpolltime: int, c: Cycle, grow: int -> int)
      returns (polltime': int, adjpolltime': int)
      requires buffer.Length == BufferSize
      requires GrowthLaw(grow) && InBounds(polltime)
      modifies this`signalled, this`written, buffer
      ensures PumpState(polltime', adjpolltime', signalled, written)
        == Step(PumpState(polltime, adjpolltime, old(signalled), old(written)), c, grow)
    {
      var isConnected := false;
      var isDataAvailable := false;
      match c.probe {
        case Probed(readable, available, dataAvailable) =>
          isConnected := IsConnected(readable, available);
          isDataAvailable := dataAvailable;
        case PollFailed =>
          HandleError();
        case DataAvailableFailed(readable, available) =>
          isConnected := IsConnected(readable, available);
          HandleError();
      }
      polltime' := polltime;
      if isConnected {
        if isDataAvailable {
          var count := 0;
          match c.read {
            case Read(data) =>
              forall i | 0 <= i < |data| {
                buffer[i] := data[i];
              }
              count := |data|;
            case ReadFailed =>
              HandleError();
          }
          if count > 0 {
            assert buffer[..count] == c.read.data;
            if c.writeOk {
              written := written + buffer[..count];
            } else {
              HandleError();
            }
            polltime' := StatePollingMinTime;
          }
        } else {
          polltime' := Grow(polltime, grow);
        }
      } else {
        signalled := true;
      }
      adjpolltime' := c.elapsedMs;
    }

    /**
     * The communication thread: cycles run while the event is not set; once it
     * is, the session disconnects. A trace that ends before the event is set
     * stands for a thread that is still running.
     */
    method CommunicationThread(trace: seq<Cycle>, grow: int -> int) returns (cycles: nat)
      requires Valid() && hasClient && GrowthLaw(grow)
      modifies this
      ensures Valid()
      ensures cycles <= |trace|
      ensures var r := Run(Initial(old(signalled), old(written)), trace, grow);
        signalled == r.signalled && written == r.written
      ensures !signalled ==>
        (cycles == |trace| && hasClient == old(hasClient)
         && streamCloses == old(streamCloses) && clientCloses == old(clientCloses))
      ensures signalled ==>
        (!hasClient && !hasStream
         && clientCloses == old(clientCloses) + (if old(hasClient) then 1 else 0)
         && streamCloses == old(streamCloses) + (if old(hasClient) then 1 else 0))
    {
      var buffer := new byte[BufferSize];
      var polltime := StatePollingMinTime;
      var adjpolltime := 0;
      ghost var start := Initial(signalled, written);
      cycles := 0;
      while !signalled && cycles < |trace|
        invariant cycles <= |trace|
        invariant InBounds(polltime)
        invariant Run(PumpState(polltime, adjpolltime, signalled, written), trace[cycles..], grow)
          == Run(start, trace, grow)
        invariant hasClient == old(hasClient) && hasStream == old(hasStream)
        invariant streamCloses == old(streamCloses) && clientCloses == old(clientCloses)
      {
        var _ := WaitTime(polltime, adjpolltime);
        ghost var before := PumpState(polltime, adjpolltime, signalled, written);
        assert trace[cycles..][1..] == trace[cycles + 1..];
        polltime, adjpolltime := RunCycle(buffer, polltime, adjpolltime, trace[cycles], grow);
        cycles := cycles + 1;
      }
      if signalled {
        Disconnect();
      }
    }

    /** Closes the stream and the client once; later calls do nothing. */
    method Disconnect()
      requires Valid()
      modifies this`hasClient, this`hasStream, this`streamCloses, this`clientCloses
      ensures Valid() && !hasClient && !hasStream
      ensures streamCloses == old(streamCloses) + (if old(hasClient) then 1 else 0)
      ensures clientCloses == old(clientCloses) + (if old(hasClient) then 1 else 0)
    {
      if hasClient {
        streamCloses := streamCloses + 1;
        clientCloses := clientCloses + 1;
        hasStream := false;
        hasClient := false;
      }
    }
  }
}
