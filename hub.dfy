/** The notification hub (backend/src/websocket_server.py): a registry of
    connected clients, the request handlers they can invoke and the
    broadcast that pushes events to all of them.

    A client is an id. Whether sending to a client succeeds is an input: the
    set `closed` of clients whose connection fails. A message arrives either
    as text that is not JSON or as its decoded JSON value. What a handler
    does is recorded as events: a reply sent to one client, or a broadcast
    with the number of clients that received it. The stores it reads and
    writes are the `StorageManager` and `ConfigLoader` it is handed. */
module Hub {
  import opened Base
  import opened Json
  import opened Records
  import Storage
  import Config

  type ClientId = nat

  // ----- replies -----

  /** The sanitised configuration `get_config` sends: no password. */
  datatype ConfigView = ConfigView(
    emailServer: Json,
    emailPort: Json,
    emailAddress: Json,
    emailSsl: Json,
    websocketHost: Json,
    websocketPort: Json,
    logLevel: Json,
    checkInterval: Json,
    idleTimeout: Json)

  /** The error replies, by the condition that produces them. `HandlerFailed`
      is an exception caught by `_handle_message` itself. */
  datatype ErrorKind =
    | UnknownType(name: Json)
    | EmailIdRequired
    | EmailNotFound(emailId: Json)
    | TitleAndDateRequired
    | AddActivityFailed
    | ActivityIdRequired
    | ConfigUpdateFailed
    | HandlerFailed

  /** Every message the hub sends, by its `type`. */
  datatype Reply =
    | Welcome(clientsConnected: nat)
    | Pong
    | StatusResponse(clientsConnected: nat, serverRunning: bool)
    | EmailList(emails: seq<Email>)
    | ActivitiesList(activities: seq<Activity>)
    | ConfigData(view: ConfigView)
    | EmailMarkedRead(emailId: Json)
    | ActivityAdded(activity: Activity)
    | ActivityDeleted(activityId: Json)
    | ConfigUpdated
    | NewEmail(email: Email, timestamp: string)
    | Error(kind: ErrorKind)

  /** What a handler does, in order: a reply to one client, or a broadcast
      and the number of clients that received it. */
  datatype Event = Sent(to: ClientId, reply: Reply) | Announced(reply: Reply, delivered: nat)

  /** A received message: text that `json.loads` rejects, or the decoded value. */
  datatype Inbound = NotJson | Decoded(doc: Json)

  /** The outside world during one message: the clock reading, the next
      `uuid4()`, `datetime.fromisoformat` acceptance, whether store reads and
      writes succeed, and which clients' connections fail. */
  datatype Env = Env(
    now: string,
    newId: string,
    isoValid: string -> bool,
    readOk: bool,
    writeOk: bool,
    closed: set<ClientId>)

  // ----- dispatch -----

  /** The request kinds `_handle_message` knows, and any other `type`. */
  datatype Command =
    | Ping | Status | GetEmails | GetActivities | GetConfig
    | MarkRead | AddActivity | DeleteActivity | UpdateConfig
    | Unknown(name: Json)

  /** The `type` of each request kind. */
  function TypeName(c: Command): Json {
    match c
    case Ping => JStr("ping")
    case Status => JStr("status")
    case GetEmails => JStr("get_emails")
    case GetActivities => JStr("get_activities")
    case GetConfig => JStr("get_config")
    case MarkRead => JStr("mark_read")
    case AddActivity => JStr("add_activity")
    case DeleteActivity => JStr("delete_activity")
    case UpdateConfig => JStr("update_config")
    case Unknown(name) => name
  }

  const KnownTypes: set<Json> := {
    JStr("ping"), JStr("status"), JStr("get_emails"), JStr("get_activities"), JStr("get_config"),
    JStr("mark_read"), JStr("add_activity"), JStr("delete_activity"), JStr("update_config")}

  /** The `if`/`elif` chain of `_handle_message` on `msg_type`. */
  function CommandOf(t: Json): (c: Command)
    ensures TypeName(c) == t
    ensures c.Unknown? <==> t !in KnownTypes
  {
    if t == JStr("ping") then Ping
    else if t == JStr("status") then Status
    else if t == JStr("get_emails") then GetEmails
    else if t == JStr("get_activities") then GetActivities
    else if t == JStr("get_config") then GetConfig
    else if t == JStr("mark_read") then MarkRead
    else if t == JStr("add_activity") then AddActivity
    else if t == JStr("delete_activity") then DeleteActivity
    else if t == JStr("update_config") then UpdateConfig
    else Unknown(t)
  }

  /** Each known kind, and nothing else, reaches its own handler. */
  lemma DispatchIsExact(c: Command)
    requires !c.Unknown? || c.name !in KnownTypes
    ensures CommandOf(TypeName(c)) == c
  {
  }

  /** `data.get('type', 'unknown')` on a decoded object. */
  function TypeOf(doc: Json): Json
    requires doc.JObj?
  {
    if "type" in doc.fields then doc.fields["type"] else JStr("unknown")
  }

  /** A message without `type` is answered as the unknown type `'unknown'`. */
  lemma MissingTypeIsUnknown(doc: Json)
    requires doc.JObj? && "type" !in doc.fields
    ensures CommandOf(TypeOf(doc)) == Unknown(JStr("unknown"))
  {
  }

  // ----- get_config -----

  /** All nine values `get_config` reads exist. */
  predicate ViewAvailable(cfg: map<string, Json>) {
    && Config.Lookup(cfg, "email", "server").Ok? && Config.Lookup(cfg, "email", "port").Ok?
    && Config.Lookup(cfg, "email", "address").Ok? && Config.Lookup(cfg, "email", "ssl").Ok?
    && Config.Lookup(cfg, "websocket", "host").Ok? && Config.Lookup(cfg, "websocket", "port").Ok?
    && Config.Lookup(cfg, "logging", "level").Ok?
    && Config.Lookup(cfg, "monitor", "check_interval").Ok? && Config.Lookup(cfg, "monitor", "idle_timeout").Ok?
  }

  /** `config_data` of `_handle_get_config`; any missing value raises. */
  function ConfigViewOf(cfg: map<string, Json>): (r: Result<ConfigView>)
    ensures r.Ok? <==> ViewAvailable(cfg)
  {
    if ViewAvailable(cfg) then
      Ok(ConfigView(
        Config.Lookup(cfg, "email", "server").value, Config.Lookup(cfg, "email", "port").value,
        Config.Lookup(cfg, "email", "address").value, Config.Lookup(cfg, "email", "ssl").value,
        Config.Lookup(cfg, "websocket", "host").value, Config.Lookup(cfg, "websocket", "port").value,
        Config.Lookup(cfg, "logging", "level").value,
        Config.Lookup(cfg, "monitor", "check_interval").value, Config.Lookup(cfg, "monitor", "idle_timeout").value))
    else Err
  }

  /** The view does not depend on the mail password in any way. */
  lemma PasswordNeverShown(cfg: map<string, Json>, password: Json)
    requires "email" in cfg && cfg["email"].JObj?
    ensures ConfigViewOf(cfg["email" := JObj(cfg["email"].fields["password" := password])]) == ConfigViewOf(cfg)
  {
    var cfg' := cfg["email" := JObj(cfg["email"].fields["password" := password])];
    forall k | k != "password"
      ensures Config.Lookup(cfg', "email", k) == Config.Lookup(cfg, "email", k)
    {
    }
  }

  // ----- mark_read -----

  /** The index of the first e-mail whose id equals `id`. */
  function FirstEmailWithId(emails: seq<Email>, id: Json): (r: Option<nat>)
    ensures r.Some? ==> r.value < |emails| && HasId(emails[r.value], id)
    ensures r.Some? ==> forall j :: 0 <= j < r.value ==> !HasId(emails[j], id)
    ensures r.None? ==> forall j :: 0 <= j < |emails| ==> !HasId(emails[j], id)
  {
    if emails == [] then None
    else if HasId(emails[0], id) then Some(0)
    else match FirstEmailWithId(emails[1..], id)
      case None => None
      case Some(k) => Some(k + 1)
  }

  /** The list `_handle_mark_read` writes back, or `None` when no e-mail has the id. */
  function MarkedRead(emails: seq<Email>, id: Json): Option<seq<Email>> {
    match FirstEmailWithId(emails, id)
    case None => None
    case Some(i) => Some(emails[i := emails[i].(unread := false)])
  }

  /** Only the first e-mail with the id is touched, and only its `unread` flag. */
  lemma MarkReadFlipsOnlyFirst(emails: seq<Email>, id: Json)
    ensures MarkedRead(emails, id).None? <==> forall j :: 0 <= j < |emails| ==> !HasId(emails[j], id)
    ensures MarkedRead(emails, id).Some? ==>
      var r := MarkedRead(emails, id).value;
      var i := FirstEmailWithId(emails, id).value;
      && |r| == |emails|
      && !r[i].unread && r[i].(unread := emails[i].unread) == emails[i]
      && (forall j :: 0 <= j < |emails| && j != i ==> r[j] == emails[j])
  {
  }

  // ----- add_activity -----

  /** The record `scheduler.add_activity` builds. */
  function NewActivity(id: string, title: Json, description: Json, createdAt: string, scheduledDate: Json): Activity {
    map["id" := JStr(id), "title" := title, "description" := description,
        "created_at" := JStr(createdAt), "scheduled_date" := scheduledDate]
  }

  // ----- update_config -----

  /** The e-mail values `update_config` passes on. */
  datatype EmailUpdate = EmailUpdate(server: Json, port: Json, address: Json, password: Json, ssl: Json)

  function Pick(given: map<string, Json>, current: map<string, Json>, k: string): Json
    requires k in current
  {
    if k in given then given[k] else current[k]
  }

  /** `email_config.get(k, current[k])` for the five fields: the current
      value is evaluated first, so it must exist even when a new one is given. */
  function EmailArgs(emailConfig: Json, cfg: map<string, Json>): Result<EmailUpdate> {
    if && "email" in cfg && cfg["email"].JObj?
       && "server" in cfg["email"].fields && "port" in cfg["email"].fields
       && "address" in cfg["email"].fields && "password" in cfg["email"].fields
       && "ssl" in cfg["email"].fields
       && emailConfig.JObj?
    then
      var cur := cfg["email"].fields;
      var given := emailConfig.fields;
      Ok(EmailUpdate(Pick(given, cur, "server"), Pick(given, cur, "port"), Pick(given, cur, "address"),
                     Pick(given, cur, "password"), Pick(given, cur, "ssl")))
    else Err
  }

  /** The document after an `update_config` step, and whether to go on. */
  datatype ConfigStep = ConfigStep(ok: bool, cfg: map<string, Json>)

  /** `config_data[name].update(arg)`: the section and the argument must be
      objects. The section object is shared with the stored document, so the
      merge is visible there at once. */
  function MergeSection(cfg: map<string, Json>, name: string, arg: Result<Json>): Option<map<string, Json>> {
    if name in cfg && cfg[name].JObj? && arg.Ok? && arg.value.JObj? then
      Some(cfg[name := JObj(cfg[name].fields + arg.value.fields)])
    else None
  }

  /** The `email` part of `update_config`: `update_email_config` and its save. */
  function EmailStep(data: Json, cfg: map<string, Json>, now: string, writeOk: bool): ConfigStep {
    match Index(data, "email")
    case Err => ConfigStep(false, cfg)
    case Ok(emailConfig) =>
      match EmailArgs(emailConfig, cfg)
      case Err => ConfigStep(false, cfg)
      case Ok(u) =>
        ConfigStep(writeOk, Config.WithEmailConfig(cfg, Config.EmailFields(u.server, u.port, u.address, u.password, u.ssl), now))
  }

  /** The `monitor`/`logging` part of `update_config`. */
  function SectionsStep(data: Json, cfg: map<string, Json>, now: string, writeOk: bool): ConfigStep
    requires data.JObj? || data.JArr? || data.JStr?
  {
    var hasMonitor := In("monitor", data).value;
    var hasLogging := In("logging", data).value;
    if !(hasMonitor || hasLogging) then ConfigStep(true, cfg)
    else
      match (if hasMonitor then MergeSection(cfg, "monitor", Index(data, "monitor")) else Some(cfg))
      case None => ConfigStep(false, cfg)
      case Some(c2) =>
        match (if hasLogging then MergeSection(c2, "logging", Index(data, "logging")) else Some(c2))
        case None => ConfigStep(false, c2)
        case Some(c3) => ConfigStep(writeOk, c3["last_updated" := JStr(now)])
  }

  /** `_handle_update_config`: whether it answers `config_updated`, and the
      document it leaves, including what earlier steps changed before a
      later one raised. */
  function UpdatedConfig(data: Json, cfg: map<string, Json>, now: string, writeOk: bool): ConfigStep {
    match In("email", data)
    case Err => ConfigStep(false, cfg)
    case Ok(hasEmail) =>
      var s := if hasEmail then EmailStep(data, cfg, now, writeOk) else ConfigStep(true, cfg);
      if !s.ok then s else SectionsStep(data, s.cfg, now, writeOk)
  }

  /** A request naming none of the sections changes nothing and succeeds. */
  lemma UpdateConfigWithoutSections(data: Json, cfg: map<string, Json>, now: string, writeOk: bool)
    requires data.JObj? && "email" !in data.fields && "monitor" !in data.fields && "logging" !in data.fields
    ensures UpdatedConfig(data, cfg, now, writeOk) == ConfigStep(true, cfg)
  {
  }

  /** Each e-mail field takes the supplied value or keeps the current one;
      every other section is left alone. */
  lemma UpdateConfigFallsBack(data: Json, cfg: map<string, Json>, now: string)
    requires data.JObj? && "email" in data.fields && data.fields["email"].JObj?
    requires "monitor" !in data.fields && "logging" !in data.fields
    requires "email" in cfg && cfg["email"].JObj?
    requires forall k :: k in Config.EmailKeys ==> k in cfg["email"].fields
    ensures var s := UpdatedConfig(data, cfg, now, true);
      var given := data.fields["email"].fields;
      var cur := cfg["email"].fields;
      && s.ok
      && (forall k :: k in Config.EmailKeys ==>
            Config.Lookup(s.cfg, "email", k) == Ok(if k in given then given[k] else cur[k]))
      && (forall k :: k in cfg && k != "email" && k != "last_updated" ==> k in s.cfg && s.cfg[k] == cfg[k])
  {
    var u := EmailArgs(data.fields["email"], cfg).value;
    Config.UpdateEmailConfigIsExact(cfg, u.server, u.port, u.address, u.password, u.ssl, now);
  }

  /** `monitor` and `logging` are merged key by key into their sections. */
  lemma UpdateConfigMergesSections(data: Json, cfg: map<string, Json>, now: string)
    requires data.JObj? && "email" !in data.fields
    requires "monitor" in data.fields && data.fields["monitor"].JObj?
    requires "logging" in data.fields && data.fields["logging"].JObj?
    requires "monitor" in cfg && cfg["monitor"].JObj? && "logging" in cfg && cfg["logging"].JObj?
    ensures var s := UpdatedConfig(data, cfg, now, true);
      && s.ok
      && s.cfg["monitor"] == JObj(cfg["monitor"].fields + data.fields["monitor"].fields)
      && s.cfg["logging"] == JObj(cfg["logging"].fields + data.fields["logging"].fields)
      && (forall k :: k in cfg && k !in {"monitor", "logging", "last_updated"} ==> k in s.cfg && s.cfg[k] == cfg[k])
  {
  }

  /** Because the section object is shared, a `monitor` merge stays in the
      document even when the `logging` merge then raises and the client is
      told the update failed. */
  lemma UpdateConfigKeepsEarlierMerge(data: Json, cfg: map<string, Json>, now: string, writeOk: bool)
    requires data.JObj? && "email" !in data.fields
    requires "monitor" in data.fields && data.fields["monitor"].JObj?
    requires "logging" in data.fields && !data.fields["logging"].JObj?
    requires "monitor" in cfg && cfg["monitor"].JObj?
    ensures var s := UpdatedConfig(data, cfg, now, writeOk);
      !s.ok && s.cfg == cfg["monitor" := JObj(cfg["monitor"].fields + data.fields["monitor"].fields)]
  {
  }

  /** The envelope `broadcast_new_email` wraps an e-mail in. */
  function NewEmailEnvelope(e: Email): (r: Reply)
    ensures r.NewEmail? && r.email == e && r.timestamp == e.timestamp
  {
    NewEmail(e, e.timestamp)
  }

  /** Evicting the failed snapshot members is evicting the closed clients. */
  lemma EvictFailed(snapshot: set<ClientId>, closed: set<ClientId>, failed: set<ClientId>)
    requires failed == snapshot * closed
    ensures snapshot - failed == snapshot - closed
  {
  }

  /** What the send loop knows after trying the clients in `done`, with
      `remaining` still to try. */
  ghost predicate Tried(snapshot: set<ClientId>, closed: set<ClientId>, done: set<ClientId>, remaining: set<ClientId>,
                        count: nat, attempted: seq<ClientId>, failed: seq<ClientId>)
  {
    && done + remaining == snapshot && done * remaining == {}
    && Elements(attempted) == done && NoDuplicates(attempted) && |attempted| == |done|
    && count == |done - closed|
    && Elements(failed) == done * closed
  }

  /** One more client tried: it counts as a success or joins the failures. */
  lemma SendStep(done: set<ClientId>, closed: set<ClientId>, x: ClientId)
    requires x !in done
    ensures x in closed ==> (done + {x}) - closed == done - closed && (done + {x}) * closed == done * closed + {x}
    ensures x !in closed ==> |(done + {x}) - closed| == |done - closed| + 1 && (done + {x}) * closed == done * closed
  {
    if x !in closed {
      assert (done + {x}) - closed == (done - closed) + {x};
    }
  }

  /** Moving one client from the untried to the tried keeps the two a partition of the snapshot. */
  lemma MoveOne(done: set<ClientId>, remaining: set<ClientId>, snapshot: set<ClientId>, x: ClientId)
    requires done + remaining == snapshot && done * remaining == {} && x in remaining
    ensures (done + {x}) + (remaining - {x}) == snapshot && (done + {x}) * (remaining - {x}) == {}
    ensures |remaining - {x}| < |remaining|
  {
    forall y | y in snapshot
      ensures y in (done + {x}) + (remaining - {x})
    {
      assert y in done || y in remaining;
    }
  }

  /** Trying one more client keeps what the loop knows. */
  lemma TryOne(snapshot: set<ClientId>, closed: set<ClientId>, done: set<ClientId>, remaining: set<ClientId>,
               count: nat, attempted: seq<ClientId>, failed: seq<ClientId>, x: ClientId)
    requires Tried(snapshot, closed, done, remaining, count, attempted, failed) && x in remaining
    ensures Tried(snapshot, closed, done + {x}, remaining - {x}, if x in closed then count else count + 1,
                  attempted + [x], if x in closed then failed + [x] else failed)
    ensures |remaining - {x}| < |remaining|
  {
    assert x !in done;
    assert x !in attempted;
    ElementsSnoc(attempted, x);
    NoDuplicatesSnoc(attempted, x);
    SendStep(done, closed, x);
    MoveOne(done, remaining, snapshot, x);
    if x in closed {
      ElementsSnoc(failed, x);
    }
  }

  /** The events of several messages, one after the other. */
  function Concat(rs: seq<seq<Event>>): seq<Event> {
    if rs == [] then [] else Concat(rs[..|rs| - 1]) + rs[|rs| - 1]
  }

  lemma ConcatSnoc(rs: seq<seq<Event>>, r: seq<Event>)
    ensures Concat(rs + [r]) == Concat(rs) + r
  {
    assert (rs + [r])[..|rs|] == rs;
  }

  /** What `_handle_message` answers to `msg` whatever the state: nothing to
      text that is not JSON, otherwise a reply to the sender first, and the
      full answer to a non-object, a `ping` and an unknown type. */
  predicate AnswerFits(c: ClientId, msg: Inbound, reply: seq<Event>) {
    && (msg.NotJson? ==> reply == [])
    && (msg.Decoded? ==> |reply| >= 1 && reply[0].Sent? && reply[0].to == c)
    && (msg.Decoded? && !msg.doc.JObj? ==> reply == [Sent(c, Error(HandlerFailed))])
    && (msg.Decoded? && msg.doc.JObj? ==>
          var cmd := CommandOf(TypeOf(msg.doc));
          && (cmd == Ping ==> reply == [Sent(c, Pong)])
          && (cmd.Unknown? ==> reply == [Sent(c, Error(UnknownType(cmd.name)))]))
  }

  /** The send loop of `broadcast` over a snapshot of the registry: each
      client is tried once; the ones whose send fails are collected. */
  method SendAll(snapshot: set<ClientId>, closed: set<ClientId>)
    returns (count: nat, attempted: seq<ClientId>, failed: seq<ClientId>)
    ensures NoDuplicates(attempted) && Elements(attempted) == snapshot && |attempted| == |snapshot|
    ensures count == |snapshot - closed|
    ensures Elements(failed) == snapshot * closed
  {
    var remaining := snapshot;
    ghost var done: set<ClientId> := {};
    count, attempted, failed := 0, [], [];
    while remaining != {}
      invariant Tried(snapshot, closed, done, remaining, count, attempted, failed)
      decreases |remaining|
    {
      var client :| client in remaining;
      TryOne(snapshot, closed, done, remaining, count, attempted, failed, client);
      if client in closed {
        failed := failed + [client];
      } else {
        count := count + 1;
      }
      attempted := attempted + [client];
      done := done + {client};
      remaining := remaining - {client};
    }
  }

  class WebSocketServer {
    /** `clients`, the registry. */
    var clients: set<ClientId>
    /** `_running`. */
    var running: bool

    constructor ()
      ensures clients == {} && !running
    {
      clients := {};
      running := false;
    }

    /** `start`: `running` once `websockets.serve` succeeded; a failing serve raises. */
    method Start(serveOk: bool) returns (ok: bool)
      modifies this
      ensures ok == serveOk
      ensures running == (serveOk || old(running)) && clients == old(clients)
    {
      if serveOk {
        running := true;
      }
      ok := serveOk;
    }

    /** `stop`: a no-op unless running; otherwise it asks every registered
        client to close. Each client leaves the registry when its own
        session ends. */
    method Stop() returns (closing: set<ClientId>)
      modifies this
      ensures !old(running) ==> closing == {} && running == old(running)
      ensures old(running) ==> closing == clients && !running
      ensures clients == old(clients)
    {
      if !running {
        return {};
      }
      running := false;
      closing := clients;
    }

    /** `broadcast`: one send attempt to each client of a snapshot of the
        registry; the clients whose send failed are evicted afterwards. */
    method Broadcast(payload: Reply, closed: set<ClientId>) returns (count: nat, attempted: seq<ClientId>)
      modifies this
      ensures NoDuplicates(attempted) && Elements(attempted) == old(clients) && |attempted| == |old(clients)|
      ensures count == |old(clients) - closed|
      ensures clients == old(clients) - closed
      ensures old(clients) == {} ==> count == 0 && attempted == []
      ensures running == old(running)
    {
      if clients == {} {
        return 0, [];
      }
      var failed;
      count, attempted, failed := SendAll(clients, closed);
      EvictFailed(clients, closed, Elements(failed));
      Evict(failed);
    }

    /** The clean-up loop of `broadcast`: each failed client is discarded. */
    method Evict(failed: seq<ClientId>)
      modifies this
      ensures clients == old(clients) - Elements(failed) && running == old(running)
    {
      var k := 0;
      while k < |failed|
        invariant 0 <= k <= |failed|
        invariant clients == old(clients) - Elements(failed[..k]) && running == old(running)
      {
        assert failed[..k + 1] == failed[..k] + [failed[k]];
        ElementsSnoc(failed[..k], failed[k]);
        clients := clients - {failed[k]};
        k := k + 1;
      }
      assert failed[..|failed|] == failed;
    }

    /** `broadcast_new_email`: the envelope broadcast, and to how many clients it went. */
    method BroadcastNewEmail(e: Email, closed: set<ClientId>) returns (event: Event)
      modifies this
      ensures event == Announced(NewEmailEnvelope(e), |old(clients) - closed|)
      ensures clients == old(clients) - closed && running == old(running)
    {
      var count, attempted := Broadcast(NewEmailEnvelope(e), closed);
      event := Announced(NewEmailEnvelope(e), count);
    }

    /** The start of `_handle_client`: register, then welcome with the count
        that includes the new client. */
    method Connect(c: ClientId) returns (welcome: Event)
      modifies this
      ensures clients == old(clients) + {c} && running == old(running)
      ensures welcome == Sent(c, Welcome(|clients|))
    {
      clients := clients + {c};
      welcome := Sent(c, Welcome(|clients|));
    }

    /** The `finally` of `_handle_client`. */
    method Disconnect(c: ClientId)
      modifies this
      ensures clients == old(clients) - {c} && running == old(running)
    {
      clients := clients - {c};
    }

    /** `_handle_mark_read`. The reply does not depend on whether the write succeeded. */
    method HandleMarkRead(c: ClientId, data: Json, store: Storage.StorageManager, env: Env) returns (events: seq<Event>)
      modifies store
      ensures !data.JObj? ==> events == [Sent(c, Error(HandlerFailed))] && store.emails == old(store.emails)
      ensures data.JObj? ==>
        var id := Get(data, "email_id", JNull).value;
        var m := MarkedRead(if env.readOk then old(store.emails).GetOr([]) else [], id);
        && (!Truthy(id) ==> events == [Sent(c, Error(EmailIdRequired))] && store.emails == old(store.emails))
        && (Truthy(id) && m.None? ==> events == [Sent(c, Error(EmailNotFound(id)))] && store.emails == old(store.emails))
        && (Truthy(id) && m.Some? ==>
              events == [Sent(c, EmailMarkedRead(id))]
              && store.emails == if env.writeOk then Some(m.value) else old(store.emails))
      ensures store.processedUids == old(store.processedUids) && store.activities == old(store.activities)
    {
      var idR := Get(data, "email_id", JNull);
      if idR.Err? {
        return [Sent(c, Error(HandlerFailed))];
      }
      var id := idR.value;
      if !Truthy(id) {
        return [Sent(c, Error(EmailIdRequired))];
      }
      var emails := if env.readOk then store.emails.GetOr([]) else [];
      var i := 0;
      while i < |emails|
        invariant 0 <= i <= |emails|
        invariant forall j :: 0 <= j < i ==> !HasId(emails[j], id)
      {
        if HasId(emails[i], id) {
          var updated := emails[i := emails[i].(unread := false)];
          if env.writeOk {
            store.emails := Some(updated);
          }
          return [Sent(c, EmailMarkedRead(id))];
        }
        i := i + 1;
      }
      events := [Sent(c, Error(EmailNotFound(id)))];
    }

    /** `_handle_add_activity` with `scheduler.add_activity`: on success the
        requester is answered first, then the same payload is broadcast. */
    method HandleAddActivity(c: ClientId, data: Json, store: Storage.StorageManager, env: Env)
      returns (events: seq<Event>)
      modifies this, store
      ensures !data.JObj? ==> events == [Sent(c, Error(HandlerFailed))]
      ensures data.JObj? ==>
        var title := Get(data, "title", JNull).value;
        var date := Get(data, "scheduled_date", JNull).value;
        var a := NewActivity(env.newId, title, Get(data, "description", JStr("")).value, env.now, date);
        && (!Truthy(title) || !Truthy(date) ==> events == [Sent(c, Error(TitleAndDateRequired))])
        && (Truthy(title) && Truthy(date) && !(date.JStr? && env.isoValid(date.s)) ==>
              events == [Sent(c, Error(AddActivityFailed))])
        && (Truthy(title) && Truthy(date) && date.JStr? && env.isoValid(date.s) ==>
              && store.activities == (if env.readOk && old(store.activities).Some? && env.writeOk
                                      then Some(old(store.activities).value + [a]) else old(store.activities))
              && events == if env.readOk && old(store.activities).Some? && env.writeOk
                           then [Sent(c, ActivityAdded(a)), Announced(ActivityAdded(a), |old(clients) - env.closed|)]
                           else [Sent(c, Error(AddActivityFailed))])
      ensures |events| == 2 ==> clients == old(clients) - env.closed
      ensures |events| == 1 ==> clients == old(clients) && store.activities == old(store.activities)
      ensures events[0].Sent? && events[0].to == c
      ensures store.emails == old(store.emails) && store.processedUids == old(store.processedUids)
      ensures running == old(running)
    {
      var titleR := Get(data, "title", JNull);
      var descriptionR := Get(data, "description", JStr(""));
      var dateR := Get(data, "scheduled_date", JNull);
      if titleR.Err? {
        return [Sent(c, Error(HandlerFailed))];
      }
      var title, description, date := titleR.value, descriptionR.value, dateR.value;
      if !Truthy(title) || !Truthy(date) {
        return [Sent(c, Error(TitleAndDateRequired))];
      }
      if !date.JStr? || !env.isoValid(date.s) {
        return [Sent(c, Error(AddActivityFailed))];
      }
      var activity := NewActivity(env.newId, title, description, env.now, date);
      var ok, stamped := store.SaveActivity(activity, env.now, env.readOk, env.writeOk);
      if !ok {
        return [Sent(c, Error(AddActivityFailed))];
      }
      var count, attempted := Broadcast(ActivityAdded(stamped), env.closed);
      events := [Sent(c, ActivityAdded(stamped)), Announced(ActivityAdded(stamped), count)];
    }

    /** `_handle_delete_activity`: whatever `remove_activity` returns, an
        unknown id still gets an acknowledgement and a broadcast. */
    method HandleDeleteActivity(c: ClientId, data: Json, store: Storage.StorageManager, env: Env)
      returns (events: seq<Event>)
      modifies this, store
      ensures !data.JObj? ==> events == [Sent(c, Error(HandlerFailed))]
      ensures data.JObj? && !Truthy(Get(data, "activity_id", JNull).value) ==>
        events == [Sent(c, Error(ActivityIdRequired))]
      ensures data.JObj? && Truthy(Get(data, "activity_id", JNull).value) ==>
        var id := Get(data, "activity_id", JNull).value;
        var r := Storage.WithoutId(old(store.activities).GetOr([]), id);
        && events == [Sent(c, ActivityDeleted(id)), Announced(ActivityDeleted(id), |old(clients) - env.closed|)]
        && clients == old(clients) - env.closed
        && store.activities == if env.readOk && |r| < |old(store.activities).GetOr([])| && env.writeOk
                                then Some(r) else old(store.activities)
      ensures |events| == 1 ==> clients == old(clients) && store.activities == old(store.activities)
      ensures store.emails == old(store.emails) && store.processedUids == old(store.processedUids)
      ensures running == old(running)
    {
      var idR := Get(data, "activity_id", JNull);
      if idR.Err? {
        return [Sent(c, Error(HandlerFailed))];
      }
      var id := idR.value;
      if !Truthy(id) {
        return [Sent(c, Error(ActivityIdRequired))];
      }
      var removed := store.DeleteActivity(id, env.readOk, env.writeOk);
      var count, attempted := Broadcast(ActivityDeleted(id), env.closed);
      events := [Sent(c, ActivityDeleted(id)), Announced(ActivityDeleted(id), count)];
    }

    /** `_handle_update_config`, calling the loader as the source does. */
    method HandleUpdateConfig(c: ClientId, data: Json, loader: Config.ConfigLoader, env: Env)
      returns (events: seq<Event>)
      modifies loader
      ensures var s := UpdatedConfig(data, old(loader.config), env.now, env.writeOk);
        loader.config == s.cfg && events == [Sent(c, if s.ok then ConfigUpdated else Error(ConfigUpdateFailed))]
    {
      var fail := [Sent(c, Error(ConfigUpdateFailed))];
      var hasEmail := In("email", data);
      if hasEmail.Err? {
        return fail;
      }
      if hasEmail.value {
        var emailConfig := Index(data, "email");
        if emailConfig.Err? {
          return fail;
        }
        var current := loader.GetAllConfig();
        var args := EmailArgs(emailConfig.value, current);
        if args.Err? {
          return fail;
        }
        var u := args.value;
        var ok := loader.UpdateEmailConfig(u.server, u.port, u.address, u.password, u.ssl, env.now, env.writeOk);
        if !ok {
          return fail;
        }
      }
      ghost var afterEmail := loader.config;
      var hasMonitor := In("monitor", data).value;
      var hasLogging := In("logging", data).value;
      if hasMonitor || hasLogging {
        if hasMonitor {
          var merged := MergeSection(loader.config, "monitor", Index(data, "monitor"));
          if merged.None? {
            return fail;
          }
          loader.config := merged.value;
        }
        if hasLogging {
          var merged := MergeSection(loader.config, "logging", Index(data, "logging"));
          if merged.None? {
            return fail;
          }
          loader.config := merged.value;
        }
        var ok := loader.SaveConfig(env.now, env.writeOk);
        if !ok {
          return fail;
        }
      }
      events := [Sent(c, ConfigUpdated)];
    }

    /** `_handle_message`: a message that is not JSON gets no reply at all;
        every other one gets a reply to its sender first. */
    method HandleMessage(c: ClientId, msg: Inbound, store: Storage.StorageManager, loader: Config.ConfigLoader, env: Env)
      returns (events: seq<Event>)
      modifies this, store, loader
      ensures msg.NotJson? ==> events == [] && clients == old(clients)
      ensures msg.Decoded? && !msg.doc.JObj? ==> events == [Sent(c, Error(HandlerFailed))] && clients == old(clients)
      ensures msg.Decoded? ==> |events| >= 1 && events[0].Sent? && events[0].to == c
      ensures msg.Decoded? && msg.doc.JObj? ==>
        var cmd := CommandOf(TypeOf(msg.doc));
        && (cmd.Unknown? ==> events == [Sent(c, Error(UnknownType(cmd.name)))])
        && (cmd == Ping ==> events == [Sent(c, Pong)])
        && (cmd == Status ==> events == [Sent(c, StatusResponse(|old(clients)|, old(running)))])
        && (cmd == GetEmails ==>
              events == [Sent(c, EmailList(if env.readOk then old(store.emails).GetOr([]) else []))])
        && (cmd == GetActivities ==>
              events == [Sent(c, ActivitiesList(if env.readOk then old(store.activities).GetOr([]) else []))])
        && (cmd == GetConfig ==>
              events == [Sent(c, match ConfigViewOf(old(loader.config))
                                 case Ok(view) => ConfigData(view)
                                 case Err => Error(HandlerFailed))])
      ensures clients <= old(clients) && running == old(running)
    {
      if msg.NotJson? {
        return [];
      }
      var doc := msg.doc;
      if !doc.JObj? {
        return [Sent(c, Error(HandlerFailed))];
      }
      var msgType := TypeOf(doc);
      var msgData := Get(doc, "data", JObj(map[])).value;
      match CommandOf(msgType)
      case Ping =>
        events := [Sent(c, Pong)];
      case Status =>
        events := [Sent(c, StatusResponse(|clients|, running))];
      case GetEmails =>
        var emails := store.GetAllEmails(env.readOk);
        events := [Sent(c, EmailList(emails))];
      case GetActivities =>
        var activities := store.GetActivities(env.readOk);
        events := [Sent(c, ActivitiesList(activities))];
      case GetConfig =>
        var view := ConfigViewOf(loader.config);
        events := [Sent(c, match view case Ok(v) => ConfigData(v) case Err => Error(HandlerFailed))];
      case MarkRead =>
        events := HandleMarkRead(c, msgData, store, env);
      case AddActivity =>
        events := HandleAddActivity(c, msgData, store, env);
      case DeleteActivity =>
        events := HandleDeleteActivity(c, msgData, store, env);
      case UpdateConfig =>
        events := HandleUpdateConfig(c, msgData, loader, env);
      case Unknown(name) =>
        events := [Sent(c, Error(UnknownType(name)))];
    }

    /** `_handle_client` over the messages the client sends before its
        connection ends: welcomed with a count that includes it, every
        message answered in turn (`replies[i]` is what message `i` caused),
        and gone from the registry afterwards whatever happened. */
    method HandleClient(c: ClientId, inbox: seq<(Inbound, Env)>, store: Storage.StorageManager,
                        loader: Config.ConfigLoader) returns (events: seq<Event>, ghost replies: seq<seq<Event>>)
      modifies this, store, loader
      ensures |replies| == |inbox| && events == [Sent(c, Welcome(|old(clients) + {c}|))] + Concat(replies)
      ensures forall i :: 0 <= i < |inbox| ==> AnswerFits(c, inbox[i].0, replies[i])
      ensures c !in clients && clients <= old(clients)
      ensures running == old(running)
    {
      var welcome := Connect(c);
      events := [welcome];
      replies := [];
      var i := 0;
      while i < |inbox|
        invariant 0 <= i <= |inbox| && |replies| == i
        invariant events == [Sent(c, Welcome(|old(clients) + {c}|))] + Concat(replies)
        invariant forall k :: 0 <= k < i ==> AnswerFits(c, inbox[k].0, replies[k])
        invariant clients <= old(clients) + {c}
        invariant running == old(running)
      {
        var more := HandleMessage(c, inbox[i].0, store, loader, inbox[i].1);
        ConcatSnoc(replies, more);
        AppendAssoc([welcome], Concat(replies), more);
        events := events + more;
        replies := replies + [more];
        i := i + 1;
      }
      Disconnect(c);
    }
  }
}
