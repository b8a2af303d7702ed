/**
  The connection manager: connect_to_server walks the resolver's candidate
  addresses in order. A failing socket() ends the walk with -1; a failing
  connect() closes that socket and moves on; the first successful connect()
  ends the walk with its socket.
 */
module Connection {
  import opened Wrappers

  /**
    One address returned by getaddrinfo, with what the two system calls made
    on it would return: the descriptor socket() allocates (None for -1) and
    whether connect() succeeds.
   */
  datatype Candidate = Candidate(socket: Option<nat>, connects: bool)

  /** A candidate the loop passes over: its socket was created but connect failed. */
  predicate Skipped(c: Candidate)
  {
    c.socket.Some? && !c.connects
  }

  /** Index of the candidate at which the walk stops (|cs| when it runs off the end). */
  function Stop(cs: seq<Candidate>): (k: nat)
    ensures k <= |cs|
    ensures forall j :: 0 <= j < k ==> Skipped(cs[j])
    ensures k < |cs| ==> !Skipped(cs[k])
  {
    if cs == [] || !Skipped(cs[0]) then 0
    else
      var k := 1 + Stop(cs[1..]);
      assert forall j :: 1 <= j < k ==> cs[j] == cs[1..][j - 1];
      k
  }

  /** One socket() or close() call made by connect_to_server. */
  datatype SysCall = SocketCall(candidate: nat) | CloseCall(fd: int)

  /**
    The calls made on the first `n` candidates when each of them is passed
    over: socket() on the candidate, then close() of that descriptor.
   */
  function SkippedCalls(cs: seq<Candidate>, n: nat): seq<SysCall>
    requires n <= |cs|
    requires forall j :: 0 <= j < n ==> Skipped(cs[j])
  {
    if n == 0 then []
    else
      assert Skipped(cs[n - 1]);
      SkippedCalls(cs, n - 1) + [SocketCall(n - 1), CloseCall(cs[n - 1].socket.value)]
  }

  /**
    Every socket() and close() call of the walk over `cs`, in call order:
    the passed-over candidates, then socket() on the stopping candidate, or,
    when the list is exhausted, the close() of `socket_fd` after the loop
    (the last candidate's descriptor, already closed, or -1 for an empty list).
   */
  function WalkCalls(cs: seq<Candidate>): seq<SysCall>
  {
    var k := Stop(cs);
    SkippedCalls(cs, k)
      + if k < |cs| then [SocketCall(k)]
        else [CloseCall(if k == 0 then -1 else cs[k - 1].socket.value)]
  }

  /**
    The socket connect_to_server hands back, None standing for -1. `resolved`
    is None when getaddrinfo fails.
   */
  function Outcome(resolved: Option<seq<Candidate>>): Option<nat>
  {
    match resolved
    case None => None
    case Some(cs) =>
      var k := Stop(cs);
      if k < |cs| && cs[k].socket.Some? then cs[k].socket else None
  }

  /**
    connect_to_server. Besides the descriptor, it reports every socket() and
    close() call it makes, in call order.
   */
  method ConnectToServer(resolved: Option<seq<Candidate>>) returns (fd: int, calls: seq<SysCall>)
    ensures resolved.None? ==> fd == -1 && calls == []
    ensures resolved.Some? ==>
      var cs := resolved.value;
      var k := Stop(cs);
      && fd == (if k < |cs| && cs[k].socket.Some? then cs[k].socket.value else -1)
      && calls == WalkCalls(cs)
  {
    fd, calls := -1, [];
    if resolved.None? {
      return;
    }
    var addresses := resolved.value;
    var socketFd: int := -1;
    var ptr := 0;
    while ptr < |addresses|
      invariant ptr <= |addresses|
      invariant forall j :: 0 <= j < ptr ==> Skipped(addresses[j])
      invariant calls == SkippedCalls(addresses, ptr)
      invariant socketFd == if ptr == 0 then -1 else addresses[ptr - 1].socket.value
    {
      calls := calls + [SocketCall(ptr)];
      if addresses[ptr].socket.None? {
        fd := -1;
        return;
      }
      socketFd := addresses[ptr].socket.value;
      if !addresses[ptr].connects {
        calls := calls + [CloseCall(socketFd)];
        ptr := ptr + 1;
        continue;
      }
      break;
    }
    if ptr == |addresses| {
      calls := calls + [CloseCall(socketFd)];
      fd := -1;
      return;
    }
    fd := socketFd;
  }

  /**
    Each passed-over candidate's socket is closed before socket() is called
    on the next one: the walk's calls alternate socket() on candidate j and
    close() of its descriptor, for every candidate before the stopping one.
   */
  lemma {:induction false} CloseBeforeNextSocket(cs: seq<Candidate>, n: nat)
    requires n <= |cs|
    requires forall j :: 0 <= j < n ==> Skipped(cs[j])
    ensures |SkippedCalls(cs, n)| == 2 * n
    ensures forall j :: 0 <= j < n ==>
      SkippedCalls(cs, n)[2 * j] == SocketCall(j) && SkippedCalls(cs, n)[2 * j + 1] == CloseCall(cs[j].socket.value)
  {
    if n > 0 {
      CloseBeforeNextSocket(cs, n - 1);
      var prev := SkippedCalls(cs, n - 1);
      assert forall j :: 0 <= j < n - 1 ==> SkippedCalls(cs, n)[2 * j] == prev[2 * j] && SkippedCalls(cs, n)[2 * j + 1] == prev[2 * j + 1];
    }
  }

  /** The walk's socket() calls are on candidates 0, 1, ... in order; after the last one, at most the final close() follows. */
  lemma WalkOrder(cs: seq<Candidate>)
    ensures var k := Stop(cs);
      && |WalkCalls(cs)| == 2 * k + 1
      && (forall j :: 0 <= j < k ==>
            WalkCalls(cs)[2 * j] == SocketCall(j) && WalkCalls(cs)[2 * j + 1] == CloseCall(cs[j].socket.value))
      && WalkCalls(cs)[2 * k] == (if k < |cs| then SocketCall(k) else CloseCall(if k == 0 then -1 else cs[k - 1].socket.value))
  {
    var k := Stop(cs);
    CloseBeforeNextSocket(cs, k);
    var w := WalkCalls(cs);
    assert forall i :: 0 <= i < 2 * k ==> w[i] == SkippedCalls(cs, k)[i];
  }

  /**
    A connection is made exactly when some candidate both gets a socket and
    connects while every candidate before it got a socket: a socket() failure
    anywhere earlier rules out later candidates.
   */
  lemma ConnectedIffReachable(cs: seq<Candidate>)
    ensures Outcome(Some(cs)).Some? <==>
      exists i :: 0 <= i < |cs| && cs[i].socket.Some? && cs[i].connects && forall j :: 0 <= j < i ==> cs[j].socket.Some?
  {
  }

  /** The connected socket is the first candidate's whose connect succeeded. */
  lemma FirstSuccessWins(cs: seq<Candidate>, fd: nat)
    requires Outcome(Some(cs)) == Some(fd)
    ensures exists i ::
      && 0 <= i < |cs| && cs[i].socket == Some(fd) && cs[i].connects
      && forall j :: 0 <= j < i ==> cs[j].socket.Some? && !cs[j].connects
  {
  }

  /** Fail-fast: a socket() failure reached by the walk ends it with no connection. */
  lemma SocketFailureIsFatal(cs: seq<Candidate>, i: nat)
    requires i < |cs| && cs[i].socket.None?
    requires forall j :: 0 <= j < i ==> Skipped(cs[j])
    ensures Outcome(Some(cs)) == None
  {
  }

  /** Candidates after the stopping point are never looked at. */
  lemma LaterCandidatesIrrelevant(cs: seq<Candidate>, later: seq<Candidate>)
    requires Stop(cs) < |cs|
    ensures Stop(cs + later) == Stop(cs)
    ensures Outcome(Some(cs + later)) == Outcome(Some(cs))
  {
    var k, k' := Stop(cs), Stop(cs + later);
    assert forall j :: 0 <= j <= k ==> (cs + later)[j] == cs[j];
  }

  /** With no candidate that connects, the walk never succeeds. */
  lemma NoneConnects(cs: seq<Candidate>)
    requires forall i :: 0 <= i < |cs| ==> !cs[i].connects
    ensures Outcome(Some(cs)) == None
  {
  }
}
