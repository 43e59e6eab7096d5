/**
 * The terminal-session registry of the SSH backend: the `ssh_sessions`
 * dictionary (session id to SSHSession) and the `client_sessions` index
 * (client id to the set of session ids it opened), together with the
 * Socket.IO handlers that consult and update them.
 *
 * Each handler runs under `sessions_lock` in the backend; here every
 * handler is one method, so it is atomic by construction.  The paramiko
 * objects become handles that only record what was done to them, and
 * every outbound Socket.IO emit becomes the returned Event.
 */
module SessionRegistry {
  import opened Wrappers

  type SessionId = string
  type ClientId = string

  /** Messages the handlers put into their emits. */
  const AuthFailedText := "Authentication Failed: Invalid username, password or key"
  const ConnectFailedPrefix := "Connection failed: "
  const InitErrorPrefix := "Session initialization error: "
  const ConnectedText := "Connected successfully"
  const ClosedText := "Connection closed"
  const NotFoundOrInactiveText := "Session not found or inactive"
  const OtherClientText := "Session belongs to another client"

  /** The quote Python's `repr` puts around a text: double quotes when it holds a single quote and no double quote. */
  function ReprQuote(k: string): char {
    if '\'' in k && '"' !in k then '"' else '\''
  }

  /** A lower-case hexadecimal digit. */
  function HexDigit(n: int): (d: char)
    requires 0 <= n < 16
    ensures '0' <= d <= '9' || 'a' <= d <= 'f'
  {
    if n < 10 then ('0' as int + n) as char else ('a' as int + n - 10) as char
  }

  /** A character `repr` writes as it is inside quotes `q`; others are escaped. */
  predicate ReprPlain(c: char, q: char) {
    c != q && c != '\\' && c as int >= 0x20 && c as int != 0x7f
  }

  /** How `repr` writes one character inside quotes `q`. */
  function ReprChar(c: char, q: char): (r: string)
    ensures ReprPlain(c, q) ==> r == [c]
    ensures !ReprPlain(c, q) ==> |r| >= 2 && r[0] == '\\'
  {
    if c == q || c == '\\' then ['\\', c]
    else if c == '\t' then "\\t"
    else if c == '\n' then "\\n"
    else if c == '\r' then "\\r"
    else if c as int < 0x20 || c as int == 0x7f then "\\x" + [HexDigit(c as int / 16), HexDigit(c as int % 16)]
    else [c]
  }

  /** The characters of `k` as `repr` writes them between quotes `q`. */
  function ReprBody(k: string, q: char): (r: string)
    ensures |r| >= |k|
    ensures (forall i :: 0 <= i < |k| ==> ReprPlain(k[i], q)) ==> r == k
    decreases |k|
  {
    if k == [] then [] else ReprChar(k[0], q) + ReprBody(k[1..], q)
  }

  /**
   * `str(KeyError(k))`, which is `repr(k)`: the key between the quotes
   * `repr` picks, with backslashes, that quote and control characters
   * escaped.  A key with nothing to escape comes back as it is, quoted.
   */
  function KeyErrorText(k: string): (r: string)
    ensures |r| >= |k| + 2 && r[0] == ReprQuote(k) && r[|r| - 1] == ReprQuote(k)
    ensures (forall i :: 0 <= i < |k| ==> ReprPlain(k[i], ReprQuote(k))) ==> r == [ReprQuote(k)] + k + [ReprQuote(k)]
  {
    var q := ReprQuote(k);
    [q] + ReprBody(k, q) + [q]
  }

  /** The value of a digit `HexDigit` writes. */
  function HexValue(d: char): (n: int)
    ensures 0 <= n < 16
  {
    if '0' <= d <= '9' then d as int - '0' as int
    else if 'a' <= d <= 'f' then d as int - 'a' as int + 10
    else 0
  }

  /** Reading a quoted text back: the escapes `repr` writes are undone. */
  function Unescape(s: string): string
    decreases |s|
  {
    if s == [] then []
    else if s[0] == '\\' && |s| >= 2 then
      if s[1] == 't' then "\t" + Unescape(s[2..])
      else if s[1] == 'n' then "\n" + Unescape(s[2..])
      else if s[1] == 'r' then "\r" + Unescape(s[2..])
      else if s[1] == 'x' && |s| >= 4 then [(HexValue(s[2]) * 16 + HexValue(s[3])) as char] + Unescape(s[4..])
      else [s[1]] + Unescape(s[2..])
    else [s[0]] + Unescape(s[1..])
  }

  lemma UnescapeReprChar(c: char, q: char, t: string)
    requires q == '\'' || q == '"'
    ensures Unescape(ReprChar(c, q) + t) == [c] + Unescape(t)
  {
    var s := ReprChar(c, q) + t;
    if c == q || c == '\\' {
      assert s[2..] == t;
    } else if c == '\t' || c == '\n' || c == '\r' {
      assert s[2..] == t;
    } else if c as int < 0x20 || c as int == 0x7f {
      var n := c as int;
      assert HexValue(HexDigit(n / 16)) == n / 16;
      assert HexValue(HexDigit(n % 16)) == n % 16;
      assert s[4..] == t;
    } else {
      assert s[1..] == t;
    }
  }

  lemma {:induction false} UnescapeReprBody(k: string, q: char)
    requires q == '\'' || q == '"'
    ensures Unescape(ReprBody(k, q)) == k
    decreases |k|
  {
    if k != [] {
      UnescapeReprChar(k[0], q, ReprBody(k[1..], q));
      UnescapeReprBody(k[1..], q);
    }
  }

  /** The KeyError text determines the session id: reading it back between its quotes gives the id. */
  lemma KeyErrorTextRoundTrip(k: string)
    ensures Unescape(KeyErrorText(k)[1..|KeyErrorText(k)| - 1]) == k
  {
    var q := ReprQuote(k);
    assert KeyErrorText(k)[1..|KeyErrorText(k)| - 1] == ReprBody(k, q);
    UnescapeReprBody(k, q);
  }

  /** An id holding a single quote and no double quote is reported in double quotes. */
  lemma KeyErrorTextDoubleQuoted()
    ensures KeyErrorText("a'b") == "\"a'b\""
  {
    var k := "a'b";
    assert k == ['a', '\'', 'b'];
    assert k[1] == '\'' && '"' !in k;
    assert forall i | 0 <= i < |k| :: ReprPlain(k[i], '"');
  }

  /** A backslash in the id is doubled. */
  lemma KeyErrorTextBackslash()
    ensures KeyErrorText("a\\b") == "'a\\\\b'"
  {
    var k := "a\\b";
    assert k == ['a', '\\', 'b'];
    assert '\'' !in k;
    assert k[1..] == ['\\', 'b'] && k[2..] == ['b'];
    assert ReprBody(k[2..], '\'') == "b";
    assert ReprBody(k[1..], '\'') == "\\\\b";
  }

  /**
   * What a handler emits.  `target` and `room` name the Socket.IO room
   * (the client) the emit is addressed to; a `room` of `None` is a
   * broadcast to every client, as is every closed event.
   */
  datatype Event =
    | Connected(sessionId: SessionId, message: string, target: ClientId)
    | Error(sessionId: SessionId, error: string, room: Option<ClientId>)
    | Closed(sessionId: SessionId, message: string)
    | Silent

  /**
   * How `create_ssh_client` ended: paramiko is not modelled, only its outcome.
   * A rejected password or key does not arrive as `AuthenticationFailed`:
   * `create_ssh_client` then reads its unbound `ssh`, and the resulting
   * UnboundLocalError takes the `ConnectionFailed` branch.
   */
  datatype ConnectOutcome =
    | AuthenticationFailed
    | ConnectionFailed(reason: string)
    | Established

  /** The interactive shell channel: what was sent to it, how it was resized, whether it was closed. */
  class Channel {
    var closed: bool
    var closeCalls: nat
    var sent: seq<string>
    var resizes: seq<(int, int)>

    constructor ()
      ensures !closed && closeCalls == 0 && sent == [] && resizes == []
    {
      closed, closeCalls, sent, resizes := false, 0, [], [];
    }

    method Send(data: string)
      modifies this
      ensures sent == old(sent) + [data]
      ensures closed == old(closed) && closeCalls == old(closeCalls) && resizes == old(resizes)
    {
      sent := sent + [data];
    }

    method ResizePty(width: int, height: int)
      modifies this
      ensures resizes == old(resizes) + [(width, height)]
      ensures closed == old(closed) && closeCalls == old(closeCalls) && sent == old(sent)
    {
      resizes := resizes + [(width, height)];
    }

    method Close()
      modifies this
      ensures closed && closeCalls == old(closeCalls) + 1
      ensures sent == old(sent) && resizes == old(resizes)
    {
      closed, closeCalls := true, closeCalls + 1;
    }
  }

  /** The SSH client (transport) that owns a channel. */
  class SshClient {
    var closed: bool
    var closeCalls: nat

    constructor ()
      ensures !closed && closeCalls == 0
    {
      closed, closeCalls := false, 0;
    }

    method Close()
      modifies this
      ensures closed && closeCalls == old(closeCalls) + 1
    {
      closed, closeCalls := true, closeCalls + 1;
    }
  }

  /** `SSHSession`: the client and channel it owns, its `active` flag and its owner. */
  class Session {
    const sshClient: SshClient
    const channel: Channel
    var active: bool
    var clientId: Option<ClientId>

    /** A fresh session is active and has no owner yet. */
    constructor (sshClient: SshClient, channel: Channel)
      ensures this.sshClient == sshClient && this.channel == channel
      ensures active && clientId == None
    {
      this.sshClient := sshClient;
      this.channel := channel;
      active := true;
      clientId := None;
    }

    /**
     * `cleanup_session`: an inactive session is left alone; an active one
     * is marked inactive and its channel and client are each closed once.
     * Joining the read thread is not modelled.
     */
    method Cleanup()
      modifies this, channel, sshClient
      ensures !active && clientId == old(clientId)
      ensures channel.closeCalls == old(channel.closeCalls) + (if old(active) then 1 else 0)
      ensures sshClient.closeCalls == old(sshClient.closeCalls) + (if old(active) then 1 else 0)
      ensures channel.closed == (old(active) || old(channel.closed))
      ensures sshClient.closed == (old(active) || old(sshClient.closed))
      ensures channel.sent == old(channel.sent) && channel.resizes == old(channel.resizes)
    {
      if !active {
        return;
      }
      active := false;
      channel.Close();
      sshClient.Close();
    }
  }

  /** The two dictionaries of the backend and the handlers over them. */
  class Registry {
    var sessions: map<SessionId, Session>
    var clientSessions: map<ClientId, set<SessionId>>

    constructor ()
      ensures sessions == map[] && clientSessions == map[]
    {
      sessions, clientSessions := map[], map[];
    }

    /** The index invariant: every registered session has an owner whose set holds its id. */
    ghost predicate Indexed()
      reads this, sessions.Values
    {
      forall id :: id in sessions ==>
        && sessions[id].clientId.Some?
        && sessions[id].clientId.value in clientSessions
        && id in clientSessions[sessions[id].clientId.value]
    }

    /** Session `sid` is registered and belongs to client `c`. */
    predicate Owns(sid: SessionId, c: ClientId)
      reads this, sessions.Values
    {
      sid in sessions && sessions[sid].clientId == Some(c)
    }

    /** The three checks every input and resize makes: registered, active, owned by the caller. */
    predicate Admits(sid: SessionId, c: ClientId)
      reads this, sessions.Values
    {
      Owns(sid, c) && sessions[sid].active
    }

    /** The objects a handler on `sid` may change. */
    function Footprint(sid: SessionId): set<object>
      reads this
    {
      if sid in sessions then {sessions[sid], sessions[sid].channel, sessions[sid].sshClient} else {}
    }

    /**
     * The error `handle_ssh_input` raises for client `c` on session `sid`,
     * or None when the input may go through.
     */
    function InputRefusal(sid: SessionId, c: ClientId): (r: Option<string>)
      reads this, sessions.Values
      ensures r == None <==> Admits(sid, c)
      ensures r == Some(NotFoundOrInactiveText) <==> (sid !in sessions || !sessions[sid].active)
      ensures r == Some(OtherClientText) <==>
                (sid in sessions && sessions[sid].active && sessions[sid].clientId != Some(c))
    {
      if sid !in sessions || !sessions[sid].active then Some(NotFoundOrInactiveText)
      else if sessions[sid].clientId != Some(c) then Some(OtherClientText)
      else None
    }

    /** `handle_connect`: the connecting client gets an empty set, replacing any set it had. */
    method Connect(c: ClientId)
      modifies this
      ensures sessions == old(sessions)
      ensures clientSessions == old(clientSessions)[c := {}]
      ensures old(Indexed()) ==>
                (Indexed() <==> forall id :: id in sessions ==> sessions[id].clientId != Some(c))
    {
      clientSessions := clientSessions[c := {}];
      if old(Indexed()) && !Indexed() {
        var id :| id in sessions && !(
          && sessions[id].clientId.Some?
          && sessions[id].clientId.value in clientSessions
          && id in clientSessions[sessions[id].clientId.value]);
        assert sessions[id].clientId == Some(c);
      }
    }

    /** `handle_disconnect`: sessions are kept; nothing changes. Reports whether the client was known. */
    method Disconnect(c: ClientId) returns (known: bool)
      ensures known == (c in clientSessions)
    {
      known := c in clientSessions;
    }

    /**
     * `handle_ssh_connection`.  `outcome` is how connecting and opening the
     * shell went; `pumpFailure` is the error raised by starting the read
     * thread, if any (the session is then already registered).
     */
    method Open(sid: SessionId, c: ClientId, outcome: ConnectOutcome, pumpFailure: Option<string>)
      returns (ev: Event)
      modifies this
      ensures outcome.AuthenticationFailed? ==>
                sessions == old(sessions) && clientSessions == old(clientSessions)
                && ev == Error(sid, AuthFailedText, Some(c))
      ensures outcome.ConnectionFailed? ==>
                sessions == old(sessions) && clientSessions == old(clientSessions)
                && ev == Error(sid, ConnectFailedPrefix + outcome.reason, Some(c))
      ensures outcome.Established? ==>
                && sid in sessions
                && fresh(sessions[sid]) && fresh(sessions[sid].channel) && fresh(sessions[sid].sshClient)
                && sessions == old(sessions)[sid := sessions[sid]]
                && sessions[sid].active && sessions[sid].clientId == Some(c)
                && sessions[sid].channel.sent == [] && sessions[sid].channel.resizes == []
                && !sessions[sid].channel.closed
                && sessions[sid].sshClient.closed == pumpFailure.Some?
                && clientSessions == old(clientSessions)[c :=
                     (if c in old(clientSessions) then old(clientSessions)[c] else {}) + {sid}]
                && ev == (if pumpFailure.None? then Connected(sid, ConnectedText, c)
                          else Error(sid, InitErrorPrefix + pumpFailure.value, Some(c)))
      ensures old(Indexed()) ==> Indexed()
    {
      match outcome {
        case AuthenticationFailed =>
          return Error(sid, AuthFailedText, Some(c));
        case ConnectionFailed(reason) =>
          return Error(sid, ConnectFailedPrefix + reason, Some(c));
        case Established =>
      }
      var client := new SshClient();
      var channel := new Channel();
      var session := new Session(client, channel);
      session.clientId := Some(c);
      Register(sid, c, session);
      if pumpFailure.Some? {
        client.Close();
        ev := Error(sid, InitErrorPrefix + pumpFailure.value, Some(c));
      } else {
        ev := Connected(sid, ConnectedText, c);
      }
    }

    /** The bookkeeping block of `handle_ssh_connection`: store the session and index it under its owner. */
    method Register(sid: SessionId, c: ClientId, session: Session)
      requires session.clientId == Some(c)
      modifies this
      ensures sessions == old(sessions)[sid := session]
      ensures clientSessions == old(clientSessions)[c :=
                (if c in old(clientSessions) then old(clientSessions)[c] else {}) + {sid}]
      ensures old(Indexed()) ==> Indexed()
    {
      sessions := sessions[sid := session];
      if c !in clientSessions {
        clientSessions := clientSessions[c := {}];
      }
      clientSessions := clientSessions[c := clientSessions[c] + {sid}];
    }

    /**
     * `handle_ssh_input`: the input is sent to the channel exactly when the
     * session is registered, active and owned by the caller; otherwise the
     * error is broadcast and nothing is sent.
     */
    method SendInput(sid: SessionId, c: ClientId, input: string) returns (ev: Event)
      modifies if sid in sessions then {sessions[sid].channel} else {}
      ensures Admits(sid, c) ==>
                sessions[sid].channel.sent == old(sessions[sid].channel.sent) + [input]
                && sessions[sid].channel.resizes == old(sessions[sid].channel.resizes)
                && sessions[sid].channel.closed == old(sessions[sid].channel.closed)
                && ev == Silent
      ensures !Admits(sid, c) ==>
                (sid in sessions ==> unchanged(sessions[sid].channel))
                && ev == Error(sid, InputRefusal(sid, c).value, None)
    {
      var refusal := InputRefusal(sid, c);
      if refusal.Some? {
        return Error(sid, refusal.value, None);
      }
      sessions[sid].channel.Send(input);
      ev := Silent;
    }

    /** `handle_resize`: applied, unclamped, only for a registered, active, caller-owned session. */
    method Resize(sid: SessionId, c: ClientId, cols: int, rows: int)
      modifies if sid in sessions then {sessions[sid].channel} else {}
      ensures Admits(sid, c) ==>
                sessions[sid].channel.resizes == old(sessions[sid].channel.resizes) + [(cols, rows)]
                && sessions[sid].channel.sent == old(sessions[sid].channel.sent)
                && sessions[sid].channel.closed == old(sessions[sid].channel.closed)
      ensures !Admits(sid, c) ==> sid in sessions ==> unchanged(sessions[sid].channel)
    {
      if sid in sessions && sessions[sid].active && sessions[sid].clientId == Some(c) {
        sessions[sid].channel.ResizePty(cols, rows);
      }
    }

    /**
     * `handle_ssh_close`.  By the owner (active or not): the session is
     * marked inactive, its channel and then its client are closed, its
     * entry is deleted and its id removed from the owner's set.  The
     * `set.remove` raises KeyError when the id is missing from the set,
     * after the other effects; that error is broadcast instead of the
     * closed event.  For an unknown id or a non-owner nothing happens.
     */
    method Close(sid: SessionId, c: ClientId) returns (ev: Event)
      modifies this, Footprint(sid)
      ensures !old(Owns(sid, c)) ==>
                sessions == old(sessions) && clientSessions == old(clientSessions) && ev == Silent
                && (sid in sessions ==> unchanged(sessions[sid], sessions[sid].channel, sessions[sid].sshClient))
      ensures old(Owns(sid, c)) ==>
                && sessions == old(sessions) - {sid}
                && !old(sessions[sid]).active
                && old(sessions[sid]).clientId == Some(c)
                && old(sessions[sid]).channel.closed
                && old(sessions[sid]).channel.closeCalls == old(sessions[sid].channel.closeCalls) + 1
                && old(sessions[sid]).channel.sent == old(sessions[sid].channel.sent)
                && old(sessions[sid]).channel.resizes == old(sessions[sid].channel.resizes)
                && old(sessions[sid]).sshClient.closed
                && old(sessions[sid]).sshClient.closeCalls == old(sessions[sid].sshClient.closeCalls) + 1
                && clientSessions == (if c in old(clientSessions) then old(clientSessions)[c := old(clientSessions)[c] - {sid}]
                                      else old(clientSessions))
                && ev == (if c in old(clientSessions) && sid !in old(clientSessions)[c]
                          then Error(sid, KeyErrorText(sid), None) else Closed(sid, ClosedText))
      ensures old(Indexed()) ==> Indexed() && ev != Error(sid, KeyErrorText(sid), None)
    {
      if sid !in sessions {
        return Silent;
      }
      var session := sessions[sid];
      if session.clientId != Some(c) {
        return Silent;
      }
      session.active := false;
      session.channel.Close();
      session.sshClient.Close();
      sessions := sessions - {sid};
      ev := Closed(sid, ClosedText);
      if c in clientSessions {
        if sid in clientSessions[c] {
          clientSessions := clientSessions[c := clientSessions[c] - {sid}];
        } else {
          assert clientSessions[c] - {sid} == clientSessions[c];
          assert clientSessions[c := clientSessions[c] - {sid}] == clientSessions;
          ev := Error(sid, KeyErrorText(sid), None);
        }
      }
    }

    /**
     * The exit block of `read_output`: when the read loop ends, the session
     * registered under `sid` (if any) is marked inactive, and the closed
     * event is broadcast whether or not it was registered.
     */
    method PumpExit(sid: SessionId) returns (ev: Event)
      modifies if sid in sessions then {sessions[sid]} else {}
      ensures sid in sessions ==> !sessions[sid].active && sessions[sid].clientId == old(sessions[sid].clientId)
      ensures ev == Closed(sid, ClosedText)
    {
      if sid in sessions {
        sessions[sid].active := false;
      }
      ev := Closed(sid, ClosedText);
    }
  }

  /**
   * Teardown is at most once: cleaning a session up twice closes its
   * channel and client once in all.
   */
  method CleanupTwice(s: Session)
    modifies s, s.channel, s.sshClient
    ensures !s.active
    ensures s.channel.closeCalls <= old(s.channel.closeCalls) + 1
    ensures s.sshClient.closeCalls <= old(s.sshClient.closeCalls) + 1
  {
    s.Cleanup();
    s.Cleanup();
  }

  /**
   * After the owner closed a session, cleaning it up closes nothing more:
   * the close handler already cleared `active`.
   */
  method CloseThenCleanup(r: Registry, sid: SessionId, c: ClientId) returns (s: Session)
    requires r.Owns(sid, c)
    modifies r, r.Footprint(sid)
    ensures s == old(r.sessions[sid]) && sid !in r.sessions
    ensures s.channel.closeCalls == old(s.channel.closeCalls) + 1
    ensures s.sshClient.closeCalls == old(s.sshClient.closeCalls) + 1
  {
    s := r.sessions[sid];
    var _ := r.Close(sid, c);
    s.Cleanup();
  }

  /** Closing is idempotent: a second close by the owner finds no entry and does nothing. */
  method CloseTwice(r: Registry, sid: SessionId, c: ClientId) returns (second: Event)
    requires r.Owns(sid, c)
    modifies r, r.Footprint(sid)
    ensures sid !in r.sessions && second == Silent
  {
    var _ := r.Close(sid, c);
    second := r.Close(sid, c);
  }

  /**
   * One session id opened by two clients in turn: the second open replaces
   * the entry, and the id is then in both clients' sets.
   */
  method ReopenByOtherClient(sid: SessionId, a: ClientId, b: ClientId) returns (r: Registry)
    requires a != b
    ensures sid in r.sessions && r.sessions[sid].clientId == Some(b)
    ensures a in r.clientSessions && sid in r.clientSessions[a]
    ensures b in r.clientSessions && sid in r.clientSessions[b]
    ensures r.Indexed()
  {
    r := new Registry();
    var _ := r.Open(sid, a, Established, None);
    var _ := r.Open(sid, b, Established, None);
  }
}
