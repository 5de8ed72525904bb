/** The UDP transport: one socket, a shutdown flag and a bounded wait. */
module UdpTransport {
  import opened Types

  type Descriptor = nat

  /** What the system does with one resolved address: no socket, a socket that will not connect, or a connected one. */
  datatype Attempt = NoSocket | Refused(d: Descriptor) | Connected(d: Descriptor)

  /** How one poll() ends. */
  datatype Poll = Ready(invalid: bool) | Elapsed | Interrupted(now: real) | PollFailed

  /** How one recv() ends. */
  datatype Read = Bytes(size: nat) | ReadInterrupted | ReadFailed

  datatype Receipt = Received(size: nat) | Threw

  const MAXIMUM_MILLISECONDS := 0x7fff_ffff

  /** The poll timeout for a wait: rounded up, so that it is never shorter than the wait, and clamped. */
  function TimeoutMilliseconds(wait: real): (r: int)
    requires 0.0 <= wait
    ensures 0 <= r <= MAXIMUM_MILLISECONDS
    ensures r < MAXIMUM_MILLISECONDS ==> wait * 1000.0 <= r as real < wait * 1000.0 + 1.0
    ensures wait > 0.0 ==> r > 0
  {
    var ms := wait * 1000.0;
    var up := if ms.Floor as real == ms then ms.Floor else ms.Floor + 1;
    if up >= MAXIMUM_MILLISECONDS then MAXIMUM_MILLISECONDS else up
  }

  /** The first attempt that connects. */
  function FirstConnected(attempts: seq<Attempt>): Option<Descriptor> {
    if attempts == [] then None
    else if attempts[0].Connected? then Some(attempts[0].d)
    else FirstConnected(attempts[1..])
  }

  /** The poll that settles the wait: the first that is not an interruption before the deadline. */
  function Settling(polls: seq<Poll>, deadline: real): Poll {
    if polls == [] then Elapsed
    else if polls[0].Interrupted? && polls[0].now < deadline then Settling(polls[1..], deadline)
    else polls[0]
  }

  /** Data comes out only of a ready, valid socket that nobody shut down before or during the wait. */
  function ReceiptOf(connected: bool, shutdown: bool, shutdownMeanwhile: bool, poll: Poll, read: Read): Receipt {
    if !connected then Threw
    else if shutdown then Received(0)
    else match poll
      case PollFailed => Threw
      case Interrupted(_) => Received(0)
      case Elapsed => Received(0)
      case Ready(invalid) =>
        if shutdownMeanwhile then Received(0)
        else if invalid then Threw
        else match read
          case Bytes(size) => Received(size)
          case ReadInterrupted => Received(0)
          case ReadFailed => Threw
  }

  class Transport {
    var socket: Option<Descriptor>
    var shutdownRequested: bool
    ghost var open: set<Descriptor> // descriptors this transport has not given back

    /** Nothing leaks and nothing is closed twice: the open descriptor is the socket. */
    ghost predicate Valid()
      reads this
    {
      open == if socket.Some? then {socket.value} else {}
    }

    constructor ()
      ensures Valid() && socket.None? && !shutdownRequested
    {
      socket, shutdownRequested, open := None, false, {};
    }

    method CloseDescriptor(d: Descriptor)
      requires d in open
      modifies this`open
      ensures open == old(open) - {d}
    {
      open := open - {d};
    }

    /** Tries the addresses in order; a failed connect() leaves the transport as it was. */
    method Connect(attempts: seq<Attempt>) returns (ok: bool)
      requires Valid()
      requires forall a | a in attempts && !a.NoSocket? :: a.d !in open
      modifies this
      ensures Valid()
      ensures ok <==> FirstConnected(attempts).Some?
      ensures ok ==> socket == FirstConnected(attempts) && !shutdownRequested
      ensures !ok ==> socket == old(socket) && shutdownRequested == old(shutdownRequested)
    {
      var connected: Option<Descriptor> := None;
      var i := 0;
      while i < |attempts| && connected.None?
        invariant i <= |attempts|
        invariant connected.None? ==> FirstConnected(attempts) == FirstConnected(attempts[i..]) && open == old(open)
        invariant connected.Some? ==>
                    FirstConnected(attempts) == connected && connected.value !in old(open) &&
                    open == old(open) + {connected.value}
        invariant socket == old(socket) && shutdownRequested == old(shutdownRequested)
        decreases |attempts| - i
      {
        match attempts[i] {
          case NoSocket =>
          case Refused(d) =>
            open := open + {d};
            CloseDescriptor(d);
          case Connected(d) =>
            open := open + {d};
            connected := Some(d);
        }
        i := i + 1;
      }
      if connected.None? {
        return false;
      }
      if socket.Some? {
        CloseDescriptor(socket.value);
      }
      socket := connected;
      shutdownRequested := false;
      return true;
    }

    /** A request goes out only through an open socket, whatever the shutdown flag says. */
    method Send(sent: Option<nat>, size: nat) returns (ok: bool)
      ensures ok <==> socket.Some? && sent == Some(size)
    {
      if socket.None? {
        return false;
      }
      if sent.None? {
        return false;
      }
      return sent.value == size;
    }

    /** Waits for a record. The flag is read again after the wait, when another thread may have set it.

      Interrupted waits are resumed for exactly the time left, so no wait reaches past the deadline. */
    method Receive(timeout: real, start: real, polls: seq<Poll>, shutdownMeanwhile: bool, read: Read)
      returns (r: Receipt, waits: seq<real>)
      ensures r == ReceiptOf(socket.Some?, shutdownRequested, shutdownMeanwhile, Settling(polls, start + timeout), read)
      ensures ReceivesExactly(socket.Some?, shutdownRequested, shutdownMeanwhile, Settling(polls, start + timeout),
                              read, r)
      ensures |waits| <= |polls| + 1
      ensures forall k | 0 <= k < |waits| :: WaitsTheRest(polls, k, waits[k], start, timeout)
    {
      waits := [];
      if socket.None? {
        return Threw, waits;
      }
      if shutdownRequested {
        return Received(0), waits;
      }
      var deadline := start + timeout;
      var remaining := timeout;
      var i := 0;
      var poll := Elapsed;
      while true
        invariant i <= |polls| && |waits| == i
        invariant Settling(polls, deadline) == Settling(polls[i..], deadline)
        invariant WaitsTheRest(polls, i, remaining, start, timeout)
        invariant forall k | 0 <= k < |waits| :: WaitsTheRest(polls, k, waits[k], start, timeout)
        decreases |polls| - i
      {
        waits := waits + [remaining];
        poll := if i < |polls| then polls[i] else Elapsed;
        if !poll.Interrupted? {
          break;
        }
        var now := poll.now;
        if now >= deadline {
          return Received(0), waits;
        }
        remaining := deadline - now;
        i := i + 1;
      }
      if poll == Elapsed {
        return Received(0), waits;
      }
      if poll == PollFailed {
        return Threw, waits;
      }
      if shutdownMeanwhile {
        return Received(0), waits;
      }
      if poll.invalid {
        return Threw, waits;
      }
      if read == ReadInterrupted {
        return Received(0), waits;
      }
      if read == ReadFailed {
        return Threw, waits;
      }
      return Received(read.size), waits;
    }

    method Shutdown()
      requires Valid()
      modifies this`shutdownRequested
      ensures Valid() && shutdownRequested
    {
      shutdownRequested := true;
    }

    method Close()
      requires Valid()
      modifies this
      ensures Valid() && socket.None? && shutdownRequested && open == {}
    {
      shutdownRequested := true;
      if socket.Some? {
        CloseDescriptor(socket.value);
        socket := None;
      }
    }
  }

  /** Data comes out exactly of an open socket that is ready and valid, with neither reading of the flag set; an error
    comes out exactly of a missing socket, or of a poll, socket or read that failed before a shutdown was seen. */
  ghost predicate ReceivesExactly(connected: bool, shutdown: bool, shutdownMeanwhile: bool, poll: Poll, read: Read,
                                  r: Receipt)
  {
    (forall size: nat | size > 0 ::
      r == Received(size) <==>
      connected && !shutdown && !shutdownMeanwhile && poll == Ready(false) && read == Bytes(size)) &&
    (r == Threw <==>
      !connected ||
      (!shutdown &&
       (poll == PollFailed ||
        (!shutdownMeanwhile && (poll == Ready(true) || (poll == Ready(false) && read == ReadFailed))))))
  }

  /** The k-th wait is for the time left to the deadline when the one before it was interrupted. */
  predicate WaitsTheRest(polls: seq<Poll>, k: nat, wait: real, start: real, timeout: real) {
    if k == 0 then wait == timeout
    else k <= |polls| && polls[k - 1].Interrupted? && polls[k - 1].now + wait == start + timeout && wait > 0.0
  }

  /** A wait that is only ever interrupted early runs out. */
  lemma {:induction false} SettlingRunsOut(polls: seq<Poll>, deadline: real)
    requires forall j | 0 <= j < |polls| :: polls[j].Interrupted? && polls[j].now < deadline
    ensures Settling(polls, deadline) == Elapsed
  {
    if polls != [] {
      SettlingRunsOut(polls[1..], deadline);
    }
  }

  /** The address taken is the first that connects. */
  lemma {:induction false} FirstConnectedIsFirst(attempts: seq<Attempt>, k: nat)
    requires k < |attempts| && forall j | 0 <= j < k :: !attempts[j].Connected?
    ensures attempts[k].Connected? ==> FirstConnected(attempts) == Some(attempts[k].d)
    ensures !attempts[k].Connected? && k == |attempts| - 1 ==> FirstConnected(attempts).None?
  {
    if k > 0 {
      FirstConnectedIsFirst(attempts[1..], k - 1);
    }
  }

  /** The settling poll is the first that is not an early interruption. */
  lemma {:induction false} SettlingIsFirst(polls: seq<Poll>, deadline: real, k: nat)
    requires k < |polls| && !(polls[k].Interrupted? && polls[k].now < deadline)
    requires forall j | 0 <= j < k :: polls[j].Interrupted? && polls[j].now < deadline
    ensures Settling(polls, deadline) == polls[k]
  {
    if k > 0 {
      SettlingIsFirst(polls[1..], deadline, k - 1);
    }
  }
}
