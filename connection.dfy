/**
 * The WhatsApp connection view state of the RSVP page (src/pages/RSVPPage.tsx):
 * four fields that the socket's named events and two user commands overwrite.
 * Events form a closed datatype and each handler is a transition function.
 * As in the page, nothing here enforces that a QR code is shown only while
 * disconnected, and no session-ending event forgets the logged number.
 */
module WhatsAppConnection {
  import opened Wrappers

  /** The events the page subscribes to on its socket. */
  datatype Inbound =
    | Connect
    | ConnectError
    | Qr(payload: string)
    | Ready(status: bool, currentNumber: Option<string>)
    | Authenticated(status: bool)
    | LoggedOut            // "logout"
    | Disconnected         // "disconnected"
    | Disconnect           // "disconnect"
    | AuthFailure          // "auth_failure"
    | LoadingScreen(message: string)

  /** The events the page emits. */
  datatype Outbound = GetReadyStatus | SetWeddingId(weddingId: Option<string>) | Reinitialize | LogoutBridge

  /** `isWhatsappConnected`, `isWhatsappLoading`, `qrCodeUrl`, `currentLoggedNumber`. */
  datatype Conn = Conn(connected: bool, loading: bool, qr: Option<string>, number: Option<string>)

  /** Not connected, loading, no QR code, no number. */
  const Initial := Conn(false, true, None, None)

  /** The four events after which the page waits for a new login. */
  predicate EndsSession(e: Inbound) {
    e.LoggedOut? || e.Disconnected? || e.Disconnect? || e.AuthFailure?
  }

  /** The state after a handler runs. */
  function Step(s: Conn, e: Inbound): (t: Conn)
    ensures e.Qr? ==> t == s.(qr := Some(e.payload), loading := false)
    ensures e.Ready? ==> t == Conn(e.status, false, None, e.currentNumber)
    ensures e.Authenticated? ==> t == s.(connected := e.status, qr := None, loading := false)
    ensures EndsSession(e) ==> t == s.(connected := false, qr := None, loading := true)
    ensures e.Connect? || e.ConnectError? || e.LoadingScreen? ==> t == s
  {
    match e
    case Qr(p) => s.(qr := Some(p), loading := false)
    case Ready(status, n) => s.(connected := status, number := n, qr := None, loading := false)
    case Authenticated(status) => s.(connected := status, qr := None, loading := false)
    case LoggedOut => s.(connected := false, qr := None, loading := true)
    case Disconnected => s.(connected := false, qr := None, loading := true)
    case Disconnect => s.(connected := false, qr := None, loading := true)
    case AuthFailure => s.(connected := false, qr := None, loading := true)
    case _ => s
  }

  /** What the page emits in reaction to an event: on connect, a status request and then the wedding id. */
  function Emitted(e: Inbound, weddingId: Option<string>): (out: seq<Outbound>)
    ensures e.Connect? ==> out == [GetReadyStatus, SetWeddingId(weddingId)]
    ensures !e.Connect? ==> out == []
  {
    if e.Connect? then [GetReadyStatus, SetWeddingId(weddingId)] else []
  }

  /** The state after a sequence of events, processed in delivery order. */
  function Run(s: Conn, es: seq<Inbound>): Conn
    decreases |es|
  {
    if es == [] then s else Run(Step(s, es[0]), es[1..])
  }

  lemma RunOne(s: Conn, e: Inbound)
    ensures Run(s, [e]) == Step(s, e)
  {
    assert [e][1..] == [];
  }

  lemma {:induction false} RunAppend(s: Conn, a: seq<Inbound>, b: seq<Inbound>)
    ensures Run(s, a + b) == Run(Run(s, a), b)
    decreases |a|
  {
    if a == [] {
      assert a + b == b;
    } else {
      assert (a + b)[0] == a[0] && (a + b)[1..] == a[1..] + b;
      RunAppend(Step(s, a[0]), a[1..], b);
    }
  }

  /** "Reinitialize": with a socket, loading and no QR code; the connected flag and number stay. */
  function ReinitializeCommand(s: Conn, hasSocket: bool): (t: Conn)
    ensures !hasSocket ==> t == s
    ensures hasSocket ==> t.loading && t.qr.None? && t.connected == s.connected && t.number == s.number
  {
    if hasSocket then s.(loading := true, qr := None) else s
  }

  /** "Logout": with a socket, also not connected; the number stays. */
  function LogoutCommand(s: Conn, hasSocket: bool): (t: Conn)
    ensures !hasSocket ==> t == s
    ensures hasSocket ==> t == ReinitializeCommand(s, true).(connected := false)
  {
    if hasSocket then s.(loading := true, connected := false, qr := None) else s
  }

  /** What each command emits: nothing without a socket. */
  function CommandEmits(cmd: Outbound, hasSocket: bool): (out: seq<Outbound>)
    requires cmd.Reinitialize? || cmd.LogoutBridge?
    ensures |out| == (if hasSocket then 1 else 0)
    ensures hasSocket ==> out == [cmd]
  {
    if hasSocket then [cmd] else []
  }

  /** The WhatsApp login modal is open while loading or not connected (src/pages/RSVPPage.tsx:431). */
  function LoginModalVisible(s: Conn): (visible: bool)
    ensures !visible <==> s.connected && !s.loading
  {
    s.loading || !s.connected
  }

  /**
   * What does hold in every reachable state: a QR code is shown only when the
   * page is not loading, so the modal it appears in is open only because the
   * page is not connected.
   */
  predicate Inv(s: Conn) {
    s.qr.Some? ==> !s.loading
  }

  lemma StepKeepsInv(s: Conn, e: Inbound)
    requires Inv(s)
    ensures Inv(Step(s, e))
  {
  }

  lemma CommandsKeepInv(s: Conn, hasSocket: bool)
    requires Inv(s)
    ensures Inv(ReinitializeCommand(s, hasSocket)) && Inv(LogoutCommand(s, hasSocket))
  {
  }

  lemma {:induction false} RunKeepsInv(s: Conn, es: seq<Inbound>)
    requires Inv(s)
    ensures Inv(Run(s, es))
    decreases |es|
  {
    if es != [] {
      StepKeepsInv(s, es[0]);
      RunKeepsInv(Step(s, es[0]), es[1..]);
    }
  }

  /** Every state that events alone reach from the initial one satisfies the invariant. */
  lemma ReachableInv(es: seq<Inbound>)
    ensures Inv(Run(Initial, es))
  {
    RunKeepsInv(Initial, es);
  }

  /** A QR code that is on screen is on screen inside the open login modal. */
  lemma QrShownOnlyInModal(s: Conn)
    requires Inv(s) && s.qr.Some?
    ensures LoginModalVisible(s) <==> !s.connected
  {
  }

  /** The session-ending events all lead to the same state, and applying one twice is applying it once. */
  lemma SessionEndIdempotent(s: Conn, e: Inbound, f: Inbound)
    requires EndsSession(e) && EndsSession(f)
    ensures Step(Step(s, e), e) == Step(s, e)
    ensures Step(s, e) == Step(s, f)
    ensures Step(Step(s, e), f) == Step(s, f)
  {
  }

  /** `ready` overwrites every field: last write wins, whatever came before. */
  lemma ReadyForgetsHistory(es: seq<Inbound>, status: bool, n: Option<string>)
    ensures Run(Initial, es + [Ready(status, n)]) == Conn(status, false, None, n)
  {
    RunAppend(Initial, es, [Ready(status, n)]);
  }

  /** `ready` while a QR code is pending: connected with the number, the QR code gone. */
  lemma ReadyAfterQr(p: string, n: string)
    ensures Run(Initial, [Qr(p), Ready(true, Some(n))]) == Conn(true, false, None, Some(n))
  {
    RunAppend(Initial, [Qr(p)], [Ready(true, Some(n))]);
    RunOne(Initial, Qr(p));
    RunOne(Step(Initial, Qr(p)), Ready(true, Some(n)));
  }

  /** A QR event after `ready` leaves the page connected with a QR code: "QR only when disconnected" fails. */
  lemma QrWhileConnected(p: string, n: string)
    ensures var s := Run(Initial, [Ready(true, Some(n)), Qr(p)]);
            s.connected && s.qr == Some(p) && !LoginModalVisible(s)
  {
    RunAppend(Initial, [Ready(true, Some(n))], [Qr(p)]);
    RunOne(Initial, Ready(true, Some(n)));
    RunOne(Step(Initial, Ready(true, Some(n))), Qr(p));
  }

  /** The number outlives a logout: "a number only while connected" fails too. */
  lemma NumberSurvivesLogout(n: string)
    ensures var s := Run(Initial, [Ready(true, Some(n)), LoggedOut]);
            !s.connected && s.number == Some(n)
  {
    RunAppend(Initial, [Ready(true, Some(n))], [LoggedOut]);
    RunOne(Initial, Ready(true, Some(n)));
    RunOne(Step(Initial, Ready(true, Some(n))), LoggedOut);
  }
}
