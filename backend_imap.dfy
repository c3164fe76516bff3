/** The IMAP server the backend starts for testing
    (backend/src/test_imap_server.py): three fixed messages, one account,
    and per connection a command loop over the flags `logged_in` and
    `selected`. It answers a subset of IMAP4rev1 (RFC 3501: LOGIN in
    section 6.2.3, SELECT in 6.3.1, SEARCH in 6.4.4, FETCH in 6.4.5) and
    stays silent on several malformed or out-of-state commands. One
    received chunk is one command. */
module BackendImap {
  import opened Base
  import opened PyText
  import opened ImapWire
  import Utf8

  const Username: string := "test@alertas.local"
  const Password: string := "test123"

  /** `test_emails`. */
  const Fixtures: seq<Fixture> := [
    Fixture("1", "Juan Pérez <juan.perez@empresa.com>", Username, "Reunión importante - Q4 2025",
            "Fri, 22 Nov 2025 10:30:00 -0500",
            "Hola equipo,\n\nTenemos una reunión importante el próximo viernes.\n\nSaludos,\nJuan"),
    Fixture("2", "Sistema <noreply@alertas.com>", Username, "Reporte diario del sistema",
            "Fri, 22 Nov 2025 08:00:00 -0500",
            "Reporte automático:\n- Usuarios: 125\n- Correos: 487\n- Estado: OK"),
    Fixture("3", "María González <maria@cliente.com>", Username, "Consulta sobre facturación",
            "Thu, 21 Nov 2025 16:45:00 -0500",
            "Buenos días,\n\nNecesito información sobre mi factura.\n\nGracias,\nMaría")
  ]

  const Greeting: string := "* OK IMAP4rev1 Test Server Ready"

  /** The two local flags of `_handle_client`. */
  datatype State = State(loggedIn: bool, selected: bool)

  /** A mailbox is only ever selected once the client has logged in. */
  predicate Valid(st: State) {
    st.selected ==> st.loggedIn
  }

  /** What one command does: the replies sent, the new flags, and whether
      the loop ends. */
  datatype Outcome = Outcome(replies: seq<Reply>, next: State, closes: bool)

  /** The body of the command loop for the tokens of one command: fewer
      than two are ignored, the keyword is upper-cased. */
  function Respond(st: State, parts: seq<string>): Outcome {
    if |parts| < 2 then Outcome([], st, false)
    else Command(st, parts[0], Upper(parts[1]), parts[2..])
  }

  /** The if-chain on the keyword `cmd`; `args` are the tokens after it. */
  function Command(st: State, tag: string, cmd: string, args: seq<string>): Outcome {
    if cmd == "CAPABILITY" then
      Outcome([Text("* CAPABILITY IMAP4rev1"), Text(tag + " OK CAPABILITY completed")], st, false)
    else if cmd == "LOGIN" then Login(st, tag, args)
    else if cmd == "SELECT" then Select(st, tag)
    else if cmd == "SEARCH" then Search(st, tag)
    else if cmd == "FETCH" then Fetch(st, tag, args)
    else if cmd == "LOGOUT" then
      Outcome([Text("* BYE Logging out"), Text(tag + " OK LOGOUT completed")], st, true)
    else Outcome([Text(tag + " BAD Command not recognized")], st, false)
  }

  /** The quote-stripped user name and password are the test pair. */
  predicate Credentials(args: seq<string>)
    requires |args| >= 2
  {
    StripChar(args[0], '"') == Username && StripChar(args[1], '"') == Password
  }

  function Login(st: State, tag: string, args: seq<string>): Outcome {
    if |args| >= 2 then
      if Credentials(args) then Outcome([Text(tag + " OK LOGIN completed")], st.(loggedIn := true), false)
      else Outcome([Text(tag + " NO Invalid credentials")], st, false)
    else Outcome([], st, false)
  }

  function Select(st: State, tag: string): Outcome {
    if st.loggedIn then
      Outcome([Text("* " + NatToString(|Fixtures|) + " EXISTS"),
               Text("* " + NatToString(|Fixtures|) + " RECENT"),
               Text(tag + " OK SELECT completed")], st.(selected := true), false)
    else Outcome([Text(tag + " NO Not authenticated")], st, false)
  }

  function Search(st: State, tag: string): Outcome {
    if st.loggedIn && st.selected then
      Outcome([Text("* SEARCH " + SearchIds(|Fixtures|)), Text(tag + " OK SEARCH completed")], st, false)
    else Outcome([], st, false)
  }

  /** `int(parts[2]) - 1` indexes the fixtures; `ValueError` becomes BAD. */
  function Fetch(st: State, tag: string, args: seq<string>): Outcome {
    if st.loggedIn && st.selected && |args| >= 1 then
      match ParseInt(args[0])
      case None => Outcome([Text(tag + " BAD Invalid UID")], st, false)
      case Some(n) =>
        if 0 <= n - 1 < |Fixtures| then
          Outcome([Literal(args[0], BuildRfc822(Fixtures[n - 1])), Text(tag + " OK FETCH completed")], st, false)
        else Outcome([], st, false)
    else Outcome([], st, false)
  }

  /** One received chunk, decoded, stripped and split into tokens. */
  function Step(st: State, data: string): Outcome {
    Respond(st, Split(Strip(data)))
  }

  /** What `recv` returns: the peer closed (`b""`), or a decoded chunk. */
  datatype Recv = Closed | Data(text: string)

  /** The replies of the command loop over `inbox` from flags `st`, and the
      final flags. */
  function Session(st: State, inbox: seq<Recv>): (seq<Reply>, State)
    decreases |inbox|
  {
    if inbox == [] then ([], st)
    else match inbox[0]
      case Closed => ([], st)
      case Data(text) =>
        var o := Step(st, text);
        if o.closes then (o.replies, o.next)
        else
          var rest := Session(o.next, inbox[1..]);
          (o.replies + rest.0, rest.1)
  }

  /** One turn of the loop: a closed peer ends the session, a LOGOUT ends it
      after its replies, any other command continues it. */
  lemma SessionUnfold(st: State, inbox: seq<Recv>)
    requires inbox != []
    ensures inbox[0].Closed? ==> Session(st, inbox) == ([], st)
    ensures inbox[0].Data? ==>
      var o := Step(st, inbox[0].text);
      Session(st, inbox) ==
        if o.closes then (o.replies, o.next)
        else (o.replies + Session(o.next, inbox[1..]).0, Session(o.next, inbox[1..]).1)
  {
  }

  /** `SessionUnfold` at position `i` of an inbox. */
  lemma SessionAt(st: State, inbox: seq<Recv>, i: nat)
    requires i < |inbox|
    ensures inbox[i].Closed? ==> Session(st, inbox[i..]).0 == []
    ensures inbox[i].Data? ==>
      var o := Step(st, inbox[i].text);
      Session(st, inbox[i..]).0 ==
        if o.closes then o.replies else o.replies + Session(o.next, inbox[i + 1..]).0
  {
    SessionUnfold(st, inbox[i..]);
    assert inbox[i..][0] == inbox[i] && inbox[i..][1..] == inbox[i + 1..];
  }

  /** `selected ⇒ logged_in` survives every command, and neither flag is ever cleared. */
  lemma RespondKeepsValid(st: State, parts: seq<string>)
    requires Valid(st)
    ensures Valid(Respond(st, parts).next)
    ensures st.loggedIn ==> Respond(st, parts).next.loggedIn
    ensures st.selected ==> Respond(st, parts).next.selected
  {
  }

  /** ... and so it holds at the end of every session that starts from it. */
  lemma {:induction false} SessionKeepsValid(st: State, inbox: seq<Recv>)
    requires Valid(st)
    ensures Valid(Session(st, inbox).1)
    decreases |inbox|
  {
    if inbox != [] {
      match inbox[0]
      case Closed =>
      case Data(text) =>
        var o := Step(st, text);
        RespondKeepsValid(st, Split(Strip(text)));
        if !o.closes {
          SessionKeepsValid(o.next, inbox[1..]);
        }
    }
  }

  /** LOGIN sets `logged_in` exactly when the quote-stripped user name and
      password are the test pair; a mismatch answers NO and leaves the
      flags alone; with fewer than four tokens nothing is sent. */
  lemma LoginChecksCredentials(st: State, parts: seq<string>)
    requires |parts| >= 2 && Upper(parts[1]) == "LOGIN"
    ensures var o := Respond(st, parts);
      && !o.closes
      && (o.next.loggedIn <==> st.loggedIn || (|parts| >= 4 && Credentials(parts[2..])))
      && o.next.selected == st.selected
      && (|parts| < 4 ==> o.replies == [] && o.next == st)
      && (|parts| >= 4 && Credentials(parts[2..]) ==> o.replies == [Text(parts[0] + " OK LOGIN completed")])
      && (|parts| >= 4 && !Credentials(parts[2..]) ==>
            o.replies == [Text(parts[0] + " NO Invalid credentials")] && o.next == st)
  {
  }

  /** SELECT when logged in announces three messages, all recent, and
      selects; otherwise it answers NO and changes nothing. */
  lemma SelectReplies(st: State, parts: seq<string>)
    requires |parts| >= 2 && Upper(parts[1]) == "SELECT"
    ensures var o := Respond(st, parts);
      && (st.loggedIn ==>
            o.replies == [Text("* 3 EXISTS"), Text("* 3 RECENT"), Text(parts[0] + " OK SELECT completed")]
            && o.next == State(true, true))
      && (!st.loggedIn ==> o.replies == [Text(parts[0] + " NO Not authenticated")] && o.next == st)
  {
    assert |Fixtures| == 3;
    assert NatToString(3) == "3";
    assert "* " + "3" + " EXISTS" == "* 3 EXISTS";
    assert "* " + "3" + " RECENT" == "* 3 RECENT";
  }

  /** SEARCH with both flags lists messages 1 to 3; otherwise it is silent. */
  lemma SearchReplies(st: State, parts: seq<string>)
    requires |parts| >= 2 && Upper(parts[1]) == "SEARCH"
    ensures var o := Respond(st, parts);
      && o.next == st
      && (st.loggedIn && st.selected ==>
            o.replies == [Text("* SEARCH 1 2 3"), Text(parts[0] + " OK SEARCH completed")])
      && (!(st.loggedIn && st.selected) ==> o.replies == [])
  {
    assert |Fixtures| == 3;
    SearchIdsOfThree();
    assert "* SEARCH " + "1 2 3" == "* SEARCH 1 2 3";
  }

  /** FETCH n with both flags: for n from 1 to 3 the n-th fixture as a
      literal, then OK; a token that `int()` refuses gets BAD; any other
      number, a missing token or an unset flag gets nothing. */
  lemma FetchReplies(st: State, parts: seq<string>)
    requires |parts| >= 2 && Upper(parts[1]) == "FETCH"
    ensures var o := Respond(st, parts);
      && o.next == st && !o.closes
      && (st.loggedIn && st.selected && |parts| >= 3 ==>
            var n := ParseInt(parts[2]);
            && (n.None? ==> o.replies == [Text(parts[0] + " BAD Invalid UID")])
            && (n.Some? && 1 <= n.value <= 3 ==>
                  o.replies == [Literal(parts[2], BuildRfc822(Fixtures[n.value - 1])),
                                Text(parts[0] + " OK FETCH completed")])
            && (n.Some? && !(1 <= n.value <= 3) ==> o.replies == []))
      && (!(st.loggedIn && st.selected && |parts| >= 3) ==> o.replies == [])
  {
  }

  /** Upper-casing twice is upper-casing once. */
  lemma UpperIdempotent(s: string)
    ensures Upper(Upper(s)) == Upper(s)
  {
  }

  /** The keyword is matched without regard to case. */
  lemma KeywordIgnoresCase(st: State, tag: string, keyword: string, rest: seq<string>)
    ensures Respond(st, [tag, keyword] + rest) == Respond(st, [tag, Upper(keyword)] + rest)
  {
    UpperIdempotent(keyword);
    assert ([tag, Upper(keyword)] + rest)[1] == Upper(keyword);
    assert ([tag, keyword] + rest)[1] == keyword;
    assert ([tag, keyword] + rest)[2..] == ([tag, Upper(keyword)] + rest)[2..];
  }

  /** Fewer than two tokens are ignored; LOGOUT says BYE, OK and ends the
      loop; any other keyword outside the six is answered BAD. */
  lemma OtherCommands(st: State, parts: seq<string>)
    ensures |parts| < 2 ==> Respond(st, parts) == Outcome([], st, false)
    ensures |parts| >= 2 && Upper(parts[1]) == "LOGOUT" ==>
      Respond(st, parts) == Outcome([Text("* BYE Logging out"), Text(parts[0] + " OK LOGOUT completed")], st, true)
    ensures |parts| >= 2 && Upper(parts[1]) !in {"CAPABILITY", "LOGIN", "SELECT", "SEARCH", "FETCH", "LOGOUT"} ==>
      Respond(st, parts) == Outcome([Text(parts[0] + " BAD Command not recognized")], st, false)
    ensures Respond(st, parts).closes <==> |parts| >= 2 && Upper(parts[1]) == "LOGOUT"
  {
  }

  /** The first fixture's sender holds `é`, twelve code points into the
      message, so the literal announced for it is shorter than the UTF-8
      bytes that follow, while a corrected count matches them. */
  lemma FirstFixtureIsUndercounted()
    ensures AnnouncedAsWritten(BuildRfc822(Fixtures[0])) < |Utf8.Encode(BuildRfc822(Fixtures[0]))|
    ensures Announced(BuildRfc822(Fixtures[0])) == |Utf8.Encode(BuildRfc822(Fixtures[0]))|
  {
    assert Fixtures[0].sender[6] == 'é';
    NonAsciiSenderIsUndercounted(Fixtures[0], 6);
  }

  /** `TestIMAPServer`. */
  class TestImapServer {
    /** `running`, read by every client loop. */
    var running: bool

    constructor ()
      ensures !running
    {
      running := false;
    }

    /** `start`: a no-op when already running. */
    method Start() returns (started: bool)
      modifies this
      ensures started == !old(running) && running
    {
      if running {
        return false;
      }
      running := true;
      started := true;
    }

    /** `stop`: no guard; every client loop ends at its next check. */
    method Stop()
      modifies this
      ensures !running
    {
      running := false;
    }

    /** `_handle_client`: the greeting, then one command per received chunk
        while the server runs, until the peer closes or logs out. */
    method HandleClient(inbox: seq<Recv>) returns (sent: seq<Reply>)
      ensures sent == [Text(Greeting)] + (if running then Session(State(false, false), inbox).0 else [])
    {
      sent := [Text(Greeting)];
      if !running {
        return;
      }
      ghost var total := [Text(Greeting)] + Session(State(false, false), inbox).0;
      var loggedIn, selected := false, false;
      var i := 0;
      assert inbox[0..] == inbox;
      while running && i < |inbox|
        invariant 0 <= i <= |inbox|
        invariant total == sent + Session(State(loggedIn, selected), inbox[i..]).0
      {
        var st := State(loggedIn, selected);
        SessionAt(st, inbox, i);
        if inbox[i].Closed? {
          return;
        }
        var o := Step(st, inbox[i].text);
        if o.closes {
          sent := sent + o.replies;
          return;
        }
        ghost var rest := Session(o.next, inbox[i + 1..]).0;
        AppendAssoc(sent, o.replies, rest);
        sent := sent + o.replies;
        loggedIn, selected := o.next.loggedIn, o.next.selected;
        i := i + 1;
      }
      assert inbox[i..] == [];
    }
  }
}
