/**
 * The SSH handler's session registry: a table shared by every connection
 * handler that maps a handler's id to its channel, transport handle and
 * plain-text app, plus the per-handler callbacks that fill, use and empty it.
 * Each callback is one atomic step; the lock around the table only orders them.
 */
module Server {
  import opened Common
  import opened Transport
  import PlainApp

  const NOT_FOUND_MESSAGE: string := "Session not found.\n"
  const GOODBYE_MESSAGE: string := "Goodbye!\n"

  /** The bytes sent for the two fixed replies. */
  const NOT_FOUND_BYTES: seq<byte> := Utf8(NOT_FOUND_MESSAGE)
  const GOODBYE_BYTES: seq<byte> := Utf8(GOODBYE_MESSAGE)

  /** One registered session: `(ChannelId, Handle, App)`. */
  datatype Entry = Entry(channel: ChannelId, handle: Session, app: PlainApp.App)

  datatype Auth = Accept | Reject

  /** A presented public key, by algorithm and comment. */
  datatype PublicKey = PublicKey(algorithm: string, comment: string)

  datatype AuthAttempt = AuthAttempt(username: string, key: PublicKey)

  /** The inputs that end a session: the single bytes `q`, ETX (0x03) and EOT (0x04). */
  predicate IsQuitToken(data: seq<byte>)
  {
    data == [0x71] || data == [0x03] || data == [0x04]
  }

  /** `clients.insert(id, e)`. */
  function Register(m: map<nat, Entry>, id: nat, e: Entry): map<nat, Entry>
  {
    m[id := e]
  }

  /** `clients.remove(&id)`. */
  function Evict(m: map<nat, Entry>, id: nat): map<nat, Entry>
  {
    m - {id}
  }

  /** Each quit token is a single byte, so empty or longer input never ends a session. */
  lemma QuitTokens(data: seq<byte>)
    ensures IsQuitToken(data) ==> |data| == 1
    ensures !IsQuitToken([])
  {
  }

  /**
   * Registering `id` makes `e` its entry, whatever was there before, and
   * leaves every other id's entry as it was.
   */
  lemma RegisterIsolated(m: map<nat, Entry>, id: nat, e: Entry, e': Entry)
    ensures id in Register(m, id, e) && Register(m, id, e)[id] == e
    ensures Register(m, id, e).Keys == m.Keys + {id}
    ensures forall j :: j in m && j != id ==> Register(m, id, e)[j] == m[j]
    ensures Register(Register(m, id, e'), id, e) == Register(m, id, e)
  {
  }

  /**
   * Evicting `id` removes exactly that entry; evicting an absent id, or the
   * same id twice, changes nothing more.
   */
  lemma EvictIsolated(m: map<nat, Entry>, id: nat)
    ensures id !in Evict(m, id) && Evict(m, id).Keys == m.Keys - {id}
    ensures forall j :: j in Evict(m, id) ==> Evict(m, id)[j] == m[j]
    ensures id !in m ==> Evict(m, id) == m
    ensures Evict(Evict(m, id), id) == Evict(m, id)
  {
  }

  /** Registering and then evicting an id is the same as evicting it. */
  lemma EvictAfterRegister(m: map<nat, Entry>, id: nat, e: Entry)
    ensures Evict(Register(m, id, e), id) == Evict(m, id)
  {
  }

  /** The table behind `Arc<Mutex<HashMap<usize, (ChannelId, Handle, App)>>>`. */
  class ClientTable {
    var entries: map<nat, Entry>

    /** The table owns its apps: no app object is shared by two ids. */
    ghost predicate Valid()
      reads this
    {
      forall i, j :: i in entries && j in entries && i != j ==> entries[i].app != entries[j].app
    }

    ghost function Apps(): set<PlainApp.App>
      reads this
    {
      set i | i in entries :: entries[i].app
    }

    constructor ()
      ensures Valid() && entries == map[]
    {
      entries := map[];
    }
  }

  /** The append-only log of authentication attempts. */
  class AuthLog {
    var attempts: seq<AuthAttempt>

    constructor ()
      ensures attempts == []
    {
      attempts := [];
    }

    /** `record_key`: one more attempt, at the end. */
    method RecordKey(username: string, key: PublicKey)
      modifies this
      ensures attempts == old(attempts) + [AuthAttempt(username, key)]
    {
      attempts := attempts + [AuthAttempt(username, key)];
    }
  }

  class SshServer {
    /** Shared by the server and every handler cloned from it. */
    const clients: ClientTable
    const authLog: AuthLog
    var id: nat
    var protocol: Option<string>

    /** `SshServer::new`: an empty table, id 0, no protocol yet. */
    constructor New()
      ensures fresh(clients) && fresh(authLog)
      ensures clients.Valid() && clients.entries == map[] && authLog.attempts == []
      ensures id == 0 && protocol == None
    {
      clients := new ClientTable();
      authLog := new AuthLog();
      id, protocol := 0, None;
    }

    /** `self.clone()`: the table and the log are shared, the id and protocol copied. */
    constructor CloneOf(other: SshServer)
      ensures clients == other.clients && authLog == other.authLog
      ensures id == other.id && protocol == other.protocol
    {
      clients := other.clients;
      authLog := other.authLog;
      id, protocol := other.id, other.protocol;
    }

    /**
     * `new_client`: the new handler carries the current id and the server
     * moves on to the next, so successive handlers get 0, 1, 2, ...
     */
    method NewClient() returns (h: SshServer)
      modifies this
      ensures fresh(h)
      ensures h.clients == clients && h.authLog == authLog
      ensures h.id == old(id) && h.protocol == protocol
      ensures id == old(id) + 1 && protocol == old(protocol)
    {
      h := new SshServer.CloneOf(this);
      id := id + 1;
    }

    /** `auth_publickey`: every key is accepted, recorded once, and its user becomes the route. */
    method AuthPublickey(username: string, key: PublicKey) returns (r: Result<Auth, SshError>)
      modifies this, authLog
      ensures r == Ok(Accept)
      ensures protocol == Some(username) && id == old(id)
      ensures authLog.attempts == old(authLog.attempts) + [AuthAttempt(username, key)]
    {
      protocol := Some(username);
      authLog.RecordKey(username, key);
      r := Ok(Accept);
    }

    /**
     * `channel_open_session`: this handler's id now maps to the channel, the
     * session's handle and a new, empty app, replacing any earlier entry;
     * other ids keep theirs.
     */
    method ChannelOpenSession(channel: ChannelId, session: Session) returns (r: Result<bool, SshError>)
      requires clients.Valid()
      modifies clients
      ensures r == Ok(true)
      ensures clients.Valid()
      ensures id in clients.entries
      ensures clients.entries == Register(old(clients.entries), id, clients.entries[id])
      ensures clients.entries[id].channel == channel && clients.entries[id].handle == session
      ensures fresh(clients.entries[id].app) && clients.entries[id].app.content == ""
    {
      var app := new PlainApp.App.Start();
      clients.entries := clients.entries[id := Entry(channel, session, app)];
      r := Ok(true);
    }

    /** `pty_request`: acknowledge. */
    method PtyRequest(channel: ChannelId, session: Session) returns (r: Result<(), SshError>)
      modifies session
      ensures session.successes == old(session.successes) + (if channel in session.open then [channel] else [])
      ensures session.writes == old(session.writes) && session.closed == old(session.closed)
      ensures r == if channel in session.open then Ok(()) else Err(ChannelUnavailable(channel))
    {
      var ok := session.ChannelSuccess(channel);
      if !ok {
        return Err(ChannelUnavailable(channel));
      }
      r := Ok(());
    }

    /**
     * `shell_request`: a registered session's app is served with the route
     * from authentication and its content is sent, then the request succeeds;
     * an unregistered one is told so and its channel closed.
     */
    method ShellRequest(channel: ChannelId, session: Session) returns (r: Result<(), SshError>)
      requires clients.Valid()
      modifies session, clients.Apps()
      ensures clients.entries == old(clients.entries)
      ensures r == if channel in session.open then Ok(()) else Err(ChannelUnavailable(channel))
      ensures id in clients.entries ==>
        && clients.entries[id].app.content == PlainApp.RouteMessage(protocol)
        && session.writes == old(session.writes) +
             (if channel in session.open then [(channel, Utf8(PlainApp.RouteMessage(protocol)))] else [])
        && session.successes == old(session.successes) + (if channel in session.open then [channel] else [])
        && session.closed == old(session.closed)
      ensures id !in clients.entries ==>
        && session.writes == old(session.writes) +
             (if channel in session.open then [(channel, NOT_FOUND_BYTES)] else [])
        && session.successes == old(session.successes)
        && session.closed == old(session.closed) + (if channel in session.open then {channel} else {})
      ensures forall j :: j in clients.entries && j != id ==>
        clients.entries[j].app.content == old(clients.entries[j].app.content)
    {
      if id in clients.entries {
        var app := clients.entries[id].app;
        app.Serve(protocol);
        var ok := session.Data(channel, Utf8(app.content));
        if !ok {
          return Err(ChannelUnavailable(channel));
        }
        ok := session.ChannelSuccess(channel);
        if !ok {
          return Err(ChannelUnavailable(channel));
        }
      } else {
        var ok := session.Data(channel, NOT_FOUND_BYTES);
        if !ok {
          return Err(ChannelUnavailable(channel));
        }
        ok := session.Close(channel);
        if !ok {
          return Err(ChannelUnavailable(channel));
        }
      }
      r := Ok(());
    }

    /**
     * `data`: a quit token says goodbye, evicts this handler's session and
     * closes the channel; any other input, empty included, changes nothing.
     */
    method Data(channel: ChannelId, data: seq<byte>, session: Session) returns (r: Result<(), SshError>)
      requires clients.Valid()
      modifies session, clients
      ensures clients.Valid()
      ensures !IsQuitToken(data) ==>
        r == Ok(()) && clients.entries == old(clients.entries) && unchanged(session)
      ensures IsQuitToken(data) && channel in session.open ==>
        && r == Ok(())
        && clients.entries == Evict(old(clients.entries), id)
        && session.writes == old(session.writes) + [(channel, GOODBYE_BYTES)]
        && session.closed == old(session.closed) + {channel}
        && session.successes == old(session.successes)
      ensures IsQuitToken(data) && channel !in session.open ==>
        && r == Err(ChannelUnavailable(channel))
        && clients.entries == old(clients.entries)
        && session.writes == old(session.writes)
        && session.closed == old(session.closed)
        && session.successes == old(session.successes)
    {
      if IsQuitToken(data) {
        var ok := session.Data(channel, GOODBYE_BYTES);
        if !ok {
          return Err(ChannelUnavailable(channel));
        }
        clients.entries := clients.entries - {id};
        ok := session.Close(channel);
        if !ok {
          return Err(ChannelUnavailable(channel));
        }
      }
      r := Ok(());
    }

    /** `Drop`: the handler's id leaves the table; other ids are untouched. */
    method Drop()
      requires clients.Valid()
      modifies clients
      ensures clients.Valid()
      ensures clients.entries == Evict(old(clients.entries), id)
    {
      clients.entries := clients.entries - {id};
    }
  }
}
