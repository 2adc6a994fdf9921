/**
 Stopping a transport from another thread (src/tls.rs).

 The client's task connects, waits on its socket and closes it; the thread that owns the
 client stops it, by raising a flag and then shutting down whatever socket is published.
 Each action is one atomic step of one of them, or of the rest of the program, which may
 open and close sockets of its own and so be given a number the client has let go.
 */
module StopProtocol {

  const NO_SOCKET: int := -1

  /** Where the client's task is, at the points another thread could be seen or see it. */
  datatype Client =
    | Quiet
    | GivingUp(reconnect: bool)     // `Context::close`, before it clears the published socket
    | Destroying(reconnect: bool)   // ... before it destroys the connection
    | Checking                      // `connect`, before it looks at the flag
    | Connecting                    // ... in `esp_tls_conn_new_sync`
    | Publishing(socket: nat)       // ... with a socket, before it publishes it
    | WaitChecking                  // `wait`, before it looks at the flag
    | Selecting(socket: nat)        // ... in `select`, until something wakes it
    | Rechecking                    // ... before it looks at the flag again

  datatype Stopper = Before | Flagged | Locked(socket: int) | Done

  datatype Owner = Client | Others

  datatype State = State(
    stopping: bool, published: int, connection: int,
    client: Client, stopper: Stopper,
    open: map<nat, Owner>,      // every open socket of the program
    shut: set<nat>,             // those that have been shut down
    pastCheckAtFlag: bool,      // a connect was past its check when the flag went up
    lateConnects: nat)          // connects completed since the flag went up

  const START := State(false, NO_SOCKET, NO_SOCKET, Quiet, Before, map[], {}, false, 0)

  datatype Action =
    | Close | Connect | Wait                   // the client begins one, if it is quiet
    | ClientStep
    | Connected(socket: nat) | ConnectFails    // how the handshake ends
    | NoNumber                                 // its socket's number cannot be had: it is destroyed
    | SelectReturns                            // ready, timed out, or failed
    | SelectSeesShutdown                       // which only a shut-down socket does
    | StopperStep
    | OthersOpen(socket: nat) | OthersClose(socket: nat)

  predicate PastCheck(c: Client) { c.Connecting? || c.Publishing? }

  /** An action that is not possible where the system is changes nothing. */
  function Next(s: State, a: Action): State {
    match a
    case Close => if s.client.Quiet? then s.(client := GivingUp(false)) else s
    case Connect => if s.client.Quiet? then s.(client := GivingUp(true)) else s
    case Wait => if s.client.Quiet? && s.connection != NO_SOCKET then s.(client := WaitChecking) else s
    case ClientStep => ClientNext(s)
    case Connected(socket) =>
      if s.client.Connecting? && socket !in s.open then
        s.(client := Publishing(socket), open := s.open[socket := Owner.Client])
      else s
    case ConnectFails => if s.client.Connecting? then s.(client := Quiet) else s
    case NoNumber =>
      if s.client.Publishing? then
        s.(client := Quiet, open := s.open - {s.client.socket}, shut := s.shut - {s.client.socket})
      else s
    case SelectReturns => if s.client.Selecting? then s.(client := Rechecking) else s
    case SelectSeesShutdown =>
      if s.client.Selecting? && s.client.socket in s.shut then s.(client := Rechecking) else s
    case StopperStep => StopperNext(s)
    case OthersOpen(socket) => if socket !in s.open then s.(open := s.open[socket := Others]) else s
    case OthersClose(socket) =>
      if socket in s.open && s.open[socket] == Others then
        s.(open := s.open - {socket}, shut := s.shut - {socket})
      else s
  }

  function ClientNext(s: State): State {
    match s.client
    case GivingUp(reconnect) =>   // takes the lock, so not while the stopper has it
      if s.stopper.Locked? then s else s.(published := NO_SOCKET, client := Destroying(reconnect))
    case Destroying(reconnect) =>
      var s := s.(client := if reconnect then Checking else Quiet);
      if s.connection < 0 then s else
        s.(open := s.open - {s.connection}, shut := s.shut - {s.connection}, connection := NO_SOCKET)
    case Checking => s.(client := if s.stopping then Quiet else Connecting)
    case Publishing(socket) =>    // takes the lock
      if s.stopper.Locked? then s else
        s.(connection := socket, published := socket, client := Quiet,
           lateConnects := s.lateConnects + if s.stopping then 1 else 0)
    case WaitChecking =>
      s.(client := if s.stopping || s.connection < 0 then Quiet else Selecting(s.connection))
    case Rechecking => s.(client := Quiet)
    case _ => s
  }

  function StopperNext(s: State): State {
    match s.stopper
    case Before => s.(stopping := true, stopper := Flagged, pastCheckAtFlag := PastCheck(s.client))
    case Flagged => s.(stopper := Locked(s.published))
    case Locked(socket) =>
      s.(stopper := Done, shut := if socket >= 0 then s.shut + {socket} else s.shut)
    case Done => s
  }

  function Execute(s: State, actions: seq<Action>): State
    decreases |actions|
  {
    if actions == [] then s else Execute(Next(s, actions[0]), actions[1..])
  }

  ghost predicate Reachable(s: State) {
    exists actions: seq<Action> :: s == Execute(START, actions)
  }

  /** A socket that is open, and that is the current connection's. */
  predicate Current(s: State, socket: int) {
    socket >= 0 && socket in s.open && s.open[socket] == Owner.Client && s.connection == socket
  }

  predicate Inv(s: State) {
    && (s.published == NO_SOCKET || Current(s, s.published))
    && (s.connection == NO_SOCKET || Current(s, s.connection))
    && (s.connection != NO_SOCKET && !s.client.Destroying? ==> s.published == s.connection)
    && (s.client.Destroying? ==> s.published == NO_SOCKET)
    && (s.client.Checking? || PastCheck(s.client) ==> s.connection == NO_SOCKET)
    && (s.client.Publishing? ==> s.client.socket in s.open && s.open[s.client.socket] == Owner.Client)
    && (s.client.Selecting? ==> s.connection == s.client.socket)
    && (s.stopping <==> !s.stopper.Before?)
    && (s.stopper.Locked? ==> s.stopper.socket == s.published)
    && (s.stopper.Done? && s.client.Selecting? ==> s.client.socket in s.shut)
    && (!s.stopping ==> s.lateConnects == 0)
    && (s.stopping && PastCheck(s.client) ==> s.pastCheckAtFlag && s.lateConnects == 0)
    && s.lateConnects <= (if s.pastCheckAtFlag then 1 else 0)
  }

  lemma ClientNextKeepsInv(s: State)
    requires Inv(s)
    ensures Inv(ClientNext(s))
  {}

  lemma StopperNextKeepsInv(s: State)
    requires Inv(s)
    ensures Inv(StopperNext(s))
  {}

  lemma NextKeepsInv(s: State, a: Action)
    requires Inv(s)
    ensures Inv(Next(s, a))
  {
    hide ClientNext, StopperNext;
    ClientNextKeepsInv(s);
    StopperNextKeepsInv(s);
  }

  lemma {:induction false} ExecuteKeepsInv(s: State, actions: seq<Action>)
    requires Inv(s)
    ensures Inv(Execute(s, actions))
    decreases |actions|
  {
    if actions != [] {
      NextKeepsInv(s, actions[0]);
      ExecuteKeepsInv(Next(s, actions[0]), actions[1..]);
    }
  }

  lemma ReachableInv(s: State)
    requires Reachable(s)
    ensures Inv(s)
  {
    var actions: seq<Action> :| s == Execute(START, actions);
    ExecuteKeepsInv(START, actions);
  }

  /**
   A stop never reaches a socket that was closed and its number handed on: whatever the
   schedule, the one about to be shut down is open and is the current connection's.
   */
  lemma ShutdownHitsOnlyOwnSocket(s: State)
    requires Reachable(s) && s.stopper.Locked? && s.stopper.socket != NO_SOCKET
    ensures Current(s, s.stopper.socket)
    ensures Next(s, StopperStep).shut == s.shut + {s.stopper.socket}
  {
    ReachableInv(s);
  }

  /** Nothing but that step of the stopper ever shuts a socket down. */
  lemma OnlyTheStopperShutsDown(s: State, a: Action)
    ensures !(a.StopperStep? && s.stopper.Locked?) ==> Next(s, a).shut <= s.shut
  {}

  /**
   No lost wake-up: once `stop` has returned, a wait still in `select` is on a socket that
   has been shut down, so it returns at once, whatever its timeout.
   */
  lemma NoWaitOutlastsAStop(s: State)
    requires Reachable(s) && s.stopper.Done?
    ensures s.client.Selecting? ==> s.client.socket in s.shut && Next(s, SelectSeesShutdown).client.Rechecking?
    ensures s.client.WaitChecking? ==> Next(s, ClientStep).client.Quiet?
  {
    ReachableInv(s);
  }

  /** From the flag on, a wait only ever moves out of `wait`: it never enters `select`. */
  lemma NoSelectAfterTheFlag(s: State, a: Action)
    requires s.stopping && Next(s, a).client.Selecting?
    ensures s.client == Next(s, a).client
  {}

  /**
   Only a connect already past its check when the flag went up can still complete, and it
   is the last one.
   */
  lemma OnlyAConnectPastItsCheckCompletes(s: State)
    requires Reachable(s) && s.stopping
    ensures s.lateConnects <= 1
    ensures s.lateConnects == 1 || PastCheck(s.client) ==> s.pastCheckAtFlag
    ensures s.lateConnects == 1 ==> !PastCheck(s.client)
  {
    ReachableInv(s);
  }

  // ---------- And left alone, the client gets on ----------

  /** Until there is a stop, a connect whose handshake succeeds publishes its socket, whatever its number. */
  lemma AConnectPublishes(s: State, n: nat)
    requires Reachable(s) && !s.stopping && s.client.Quiet? && n !in s.open
    ensures
      var given := Next(Next(s, Connect), ClientStep);
      var closed := Next(given, ClientStep);
      var connecting := Next(closed, ClientStep);
      var connected := Next(Next(connecting, Connected(n)), ClientStep);
      && given.published == NO_SOCKET && closed.connection == NO_SOCKET && connecting.client.Connecting?
      && connected.client.Quiet? && connected.published == n && Current(connected, n)
  {
    ReachableInv(s);
  }

  /** And a wait on the connection waits. */
  lemma AWaitSelects(s: State)
    requires Reachable(s) && !s.stopping && s.client.Quiet? && s.connection != NO_SOCKET
    ensures
      var waiting := Next(Next(s, Wait), ClientStep);
      && waiting.client.Selecting? && waiting.client.socket == s.connection
      && Next(Next(waiting, SelectReturns), ClientStep).client.Quiet?
  {
    ReachableInv(s);
  }

  /** A close, with or without a stop, gives the socket up before it closes it. */
  lemma ACloseLetsGo(s: State)
    requires Reachable(s) && s.client.Quiet? && !s.stopper.Locked?
    ensures
      var given := Next(Next(s, Close), ClientStep);
      var closed := Next(given, ClientStep);
      && given.published == NO_SOCKET && given.open == s.open
      && closed.client.Quiet? && closed.connection == closed.published == NO_SOCKET
      && (s.connection != NO_SOCKET ==> closed.open.Keys == s.open.Keys - {s.connection})
  {
    ReachableInv(s);
  }

  /** A stop raises the flag, and shuts the published socket down if there is one. */
  lemma AStopShutsDown(s: State)
    requires Reachable(s) && s.stopper.Before?
    ensures
      var stopped := Next(Next(Next(s, StopperStep), StopperStep), StopperStep);
      && stopped.stopping && stopped.stopper.Done?
      && stopped.shut == s.shut + if s.published != NO_SOCKET then {s.published} else {}
  {
    ReachableInv(s);
  }

  // ---------- Connecting after a stop ----------

  /** A schedule that ends with one more connect completed than there were at its start. */
  ghost predicate Completes(s: State, actions: seq<Action>) {
    Execute(s, actions).lateConnects > s.lateConnects
  }

  /** After the flag, one that has not passed its check never does. */
  lemma {:induction false} NoneCompletes(s: State, actions: seq<Action>)
    requires s.stopping && !PastCheck(s.client)
    ensures !Completes(s, actions) && Execute(s, actions).lateConnects == s.lateConnects
    decreases |actions|
  {
    if actions != [] {
      var s' := Next(s, actions[0]);
      assert s'.stopping && !PastCheck(s'.client) && s'.lateConnects == s.lateConnects;
      NoneCompletes(s', actions[1..]);
    }
  }

  lemma SomeNumberIsFree(used: set<nat>) returns (n: nat)
    ensures forall m :: m in used ==> m < n
  {
    n := 0;
    if used != {} {
      var some :| some in used;
      var rest := used - {some};
      n := SomeNumberIsFree(rest);
      n := if n > some then n else some + 1;
      assert forall m :: m in used ==> m == some || m in rest;
    }
  }

  /** One that has passed it completes if its handshake succeeds, whatever its socket is numbered. */
  lemma APublicationCompletes(s: State) returns (actions: seq<Action>)
    requires s.stopping && s.client.Publishing?
    ensures Completes(s, actions)
  {
    if s.stopper.Locked? {
      actions := [StopperStep, ClientStep];
      var s' := Next(s, StopperStep);
      assert Execute(s', [ClientStep]) == Execute(Next(s', ClientStep), []);
      assert actions[1..] == [ClientStep];
    } else {
      actions := [ClientStep];
      assert Execute(s, actions) == Execute(Next(s, ClientStep), []);
    }
  }

  /**
   Once the flag is up, a connect can still complete exactly when one has passed its check.
   It need not: its handshake may fail.
   */
  lemma AConnectCanCompleteIffPastItsCheck(s: State)
    requires Reachable(s) && s.stopping
    ensures PastCheck(s.client) <==> exists actions :: Completes(s, actions)
  {
    if s.client.Publishing? {
      var actions := APublicationCompletes(s);
    } else if s.client.Connecting? {
      var n := SomeNumberIsFree(s.open.Keys);
      var s' := Next(s, Connected(n));
      var actions := APublicationCompletes(s');
      assert ([Connected(n)] + actions)[1..] == actions;
      assert Completes(s, [Connected(n)] + actions);
    } else {
      forall actions: seq<Action> ensures !Completes(s, actions) {
        NoneCompletes(s, actions);
      }
    }
  }

  /** So `connect` can leave an open socket behind a stop that has returned, as here. */
  lemma ALateConnectCanComplete(socket: nat)
    ensures
      var s := Execute(START, [Connect, ClientStep, ClientStep, ClientStep,
                               StopperStep, StopperStep, StopperStep, Connected(socket), ClientStep]);
      s.stopper.Done? && s.lateConnects == 1 && Current(s, socket) && socket !in s.shut
  {
    var s1 := Next(START, Connect);
    var s2 := Next(s1, ClientStep);
    var s3 := Next(s2, ClientStep);
    var s4 := Next(s3, ClientStep);
    var s5 := Next(s4, StopperStep);
    var s6 := Next(s5, StopperStep);
    var s7 := Next(s6, StopperStep);
    var s8 := Next(s7, Connected(socket));
    var s9 := Next(s8, ClientStep);
    calc {
      Execute(START, [Connect, ClientStep, ClientStep, ClientStep,
                      StopperStep, StopperStep, StopperStep, Connected(socket), ClientStep]);
      Execute(s1, [ClientStep, ClientStep, ClientStep,
                   StopperStep, StopperStep, StopperStep, Connected(socket), ClientStep]);
      Execute(s2, [ClientStep, ClientStep, StopperStep, StopperStep, StopperStep, Connected(socket), ClientStep]);
      Execute(s3, [ClientStep, StopperStep, StopperStep, StopperStep, Connected(socket), ClientStep]);
      Execute(s4, [StopperStep, StopperStep, StopperStep, Connected(socket), ClientStep]);
      Execute(s5, [StopperStep, StopperStep, Connected(socket), ClientStep]);
      Execute(s6, [StopperStep, Connected(socket), ClientStep]);
      Execute(s7, [Connected(socket), ClientStep]);
      Execute(s8, [ClientStep]);
      Execute(s9, []);
      s9;
    }
  }
}
