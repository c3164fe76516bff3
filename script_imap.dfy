/** The stand-alone IMAP test server (scripts/test_imap_server.py): the
    same three-message account as the backend's, served by one
    `IMAPClientHandler` per connection whose fields `logged_in` and
    `selected` the command loop updates. Unlike the backend's server it
    answers every command of two or more tokens, with NO or BAD where the
    other stays silent. One received chunk is one command. */
module ScriptImap {
  import opened Base
  import opened PyText
  import opened ImapWire
  import Utf8
  import BackendImap

  const Username: string := "test@alertas.local"
  const Password: string := "test123"

  /** `TEST_EMAILS`. */
  const Fixtures: seq<Fixture> := [
    Fixture("1", "Juan Pérez <juan.perez@empresa.com>", Username, "Reunión importante - Q4 2025",
            "Fri, 22 Nov 2025 10:30:00 -0500",
            "Hola equipo,\n\nTenemos una reunión importante el próximo viernes para revisar los resultados del cuarto trimestre.\n\nSaludos,\nJuan"),
    Fixture("2", "Sistema Automático <noreply@alertas.com>", Username, "Reporte diario del sistema",
            "Fri, 22 Nov 2025 08:00:00 -0500",
            "Reporte automático:\n- Usuarios activos: 125\n- Correos procesados: 487\n- Estado: Operacional"),
    Fixture("3", "María González <maria.gonzalez@cliente.com>", Username, "Consulta sobre facturación",
            "Thu, 21 Nov 2025 16:45:00 -0500",
            "Buenos días,\n\nNecesito información sobre el estado de mi factura #2025-1234.\n\n¿Podrían ayudarme?\n\nGracias,\nMaría")
  ]

  const Greeting: string := "* OK IMAP4rev1 Test Server Ready"

  /** The handler's two fields. */
  datatype State = State(loggedIn: bool, selected: bool)

  predicate Valid(st: State) {
    st.selected ==> st.loggedIn
  }

  /** What one command does: the replies sent, the new fields, and whether
      the loop ends. */
  datatype Outcome = Outcome(replies: seq<Reply>, next: State, closes: bool)

  /** The body of `handle`'s loop for the tokens of one command. */
  function Respond(st: State, parts: seq<string>): Outcome {
    if |parts| < 2 then Outcome([], st, false)
    else Command(st, parts[0], Upper(parts[1]), parts[2..])
  }

  function Command(st: State, tag: string, cmd: string, args: seq<string>): Outcome {
    if cmd == "CAPABILITY" then
      Outcome([Text("* CAPABILITY IMAP4rev1 AUTH=PLAIN"), Text(tag + " OK CAPABILITY completed")], st, false)
    else if cmd == "LOGIN" then Login(st, tag, args)
    else if cmd == "SELECT" then Select(st, tag)
    else if cmd == "SEARCH" then Search(st, tag)
    else if cmd == "FETCH" then Fetch(st, tag, args)
    else if cmd == "LOGOUT" then
      Outcome([Text("* BYE Logging out"), Text(tag + " OK LOGOUT completed")], st, true)
    else Outcome([Text(tag + " BAD Command not recognized: " + cmd)], st, false)
  }

  /** The quote-stripped user name and password are the test pair. */
  predicate Credentials(args: seq<string>)
    requires |args| >= 2
  {
    StripChar(args[0], '"') == Username && StripChar(args[1], '"') == Password
  }

  function Login(st: State, tag: string, args: seq<string>): Outcome {
    if |args| >= 2 then
      if Credentials(args) then Outcome([Text(tag + " OK LOGIN completed")], st.(loggedIn := true), false)
      else Outcome([Text(tag + " NO [AUTHENTICATIONFAILED] Invalid credentials")], st, false)
    else Outcome([Text(tag + " BAD LOGIN requires username and password")], st, false)
  }

  function Select(st: State, tag: string): Outcome {
    if st.loggedIn then
      Outcome([Text("* " + NatToString(|Fixtures|) + " EXISTS"),
               Text("* " + NatToString(|Fixtures|) + " RECENT"),
               Text("* OK [UNSEEN " + NatToString(|Fixtures|) + "]"),
               Text(tag + " OK [READ-WRITE] SELECT completed")], st.(selected := true), false)
    else Outcome([Text(tag + " NO Not authenticated")], st, false)
  }

  function Search(st: State, tag: string): Outcome {
    if st.loggedIn && st.selected then
      Outcome([Text("* SEARCH " + SearchIds(|Fixtures|)), Text(tag + " OK SEARCH completed")], st, false)
    else Outcome([Text(tag + " NO Not authenticated or no mailbox selected")], st, false)
  }

  /** `int(parts[2]) - 1` indexes the fixtures; a missing token
      (`IndexError`) or one `int()` refuses (`ValueError`) becomes BAD. */
  function Fetch(st: State, tag: string, args: seq<string>): Outcome {
    if st.loggedIn && st.selected then
      if |args| < 1 then Outcome([Text(tag + " BAD Invalid UID")], st, false)
      else match ParseInt(args[0])
        case None => Outcome([Text(tag + " BAD Invalid UID")], st, false)
        case Some(n) =>
          if 0 <= n - 1 < |Fixtures| then
            Outcome([Literal(args[0], BuildRfc822(Fixtures[n - 1])), Text(tag + " OK FETCH completed")], st, false)
          else Outcome([Text(tag + " NO Message not found")], st, false)
    else Outcome([Text(tag + " NO Not authenticated or no mailbox selected")], st, false)
  }

  /** One non-empty stripped command, split into tokens. */
  function Step(st: State, command: string): Outcome {
    Respond(st, Split(command))
  }

  /** What the socket gives `recv`: the peer closed or the read raised
      (both make `recv` return `""`), or a chunk, decoded. */
  datatype Recv = Closed | Data(text: string)

  /** The replies of `handle`'s loop over `inbox` from fields `st`, and the
      final fields. `recv` strips the chunk; an empty result ends the loop. */
  function Session(st: State, inbox: seq<Recv>): (seq<Reply>, State)
    decreases |inbox|
  {
    if inbox == [] then ([], st)
    else match inbox[0]
      case Closed => ([], st)
      case Data(text) =>
        var command := Strip(text);
        if command == "" then ([], st)
        else
          var o := Step(st, command);
          if o.closes then (o.replies, o.next)
          else
            var rest := Session(o.next, inbox[1..]);
            (o.replies + rest.0, rest.1)
  }

  /** One turn of the loop at position `i` of an inbox. */
  lemma SessionAt(st: State, inbox: seq<Recv>, i: nat)
    requires i < |inbox|
    ensures inbox[i].Closed? ==> Session(st, inbox[i..]) == ([], st)
    ensures inbox[i].Data? && Strip(inbox[i].text) == "" ==> Session(st, inbox[i..]) == ([], st)
    ensures inbox[i].Data? && Strip(inbox[i].text) != "" ==>
      var o := Step(st, Strip(inbox[i].text));
      Session(st, inbox[i..]) ==
        if o.closes then (o.replies, o.next)
        else (o.replies + Session(o.next, inbox[i + 1..]).0, Session(o.next, inbox[i + 1..]).1)
  {
    assert inbox[i..][0] == inbox[i] && inbox[i..][1..] == inbox[i + 1..];
  }

  /** `selected ⇒ logged_in` survives every command, and neither field is ever cleared. */
  lemma RespondKeepsValid(st: State, parts: seq<string>)
    requires Valid(st)
    ensures Valid(Respond(st, parts).next)
    ensures st.loggedIn ==> Respond(st, parts).next.loggedIn
    ensures st.selected ==> Respond(st, parts).next.selected
  {
    if |parts| >= 2 {
      CommandKeepsValid(st, parts[0], Upper(parts[1]), parts[2..]);
    }
  }

  lemma CommandKeepsValid(st: State, tag: string, cmd: string, args: seq<string>)
    ensures Valid(st) ==> Valid(Command(st, tag, cmd, args).next)
    ensures Command(st, tag, cmd, args).closes <==> cmd == "LOGOUT"
    ensures st.loggedIn ==> Command(st, tag, cmd, args).next.loggedIn
    ensures st.selected ==> Command(st, tag, cmd, args).next.selected
  {
    if cmd == "LOGIN" {
      LoginOutcome(st, tag, args);
    } else if cmd == "SELECT" {
      SelectOutcome(st, tag);
    } else if cmd == "SEARCH" {
      SearchOutcome(st, tag);
    } else if cmd == "FETCH" {
      FetchOutcome(st, tag, args);
    }
  }

  lemma {:induction false} SessionKeepsValid(st: State, inbox: seq<Recv>)
    requires Valid(st)
    ensures Valid(Session(st, inbox).1)
    decreases |inbox|
  {
    if inbox != [] {
      match inbox[0]
      case Closed =>
      case Data(text) =>
        var command := Strip(text);
        if command != "" {
          var o := Step(st, command);
          RespondKeepsValid(st, Split(command));
          if !o.closes {
            SessionKeepsValid(o.next, inbox[1..]);
          }
        }
    }
  }

  /** LOGIN: OK and `logged_in` exactly for the test pair, `NO
      [AUTHENTICATIONFAILED]` otherwise, and BAD with fewer than four
      tokens; only a match changes a field. */
  lemma LoginReplies(st: State, parts: seq<string>)
    requires |parts| >= 2 && Upper(parts[1]) == "LOGIN"
    ensures var o := Respond(st, parts);
      && !o.closes
      && (o.next.loggedIn <==> st.loggedIn || (|parts| >= 4 && Credentials(parts[2..])))
      && o.next.selected == st.selected
      && (|parts| < 4 ==>
            o.replies == [Text(parts[0] + " BAD LOGIN requires username and password")] && o.next == st)
      && (|parts| >= 4 && Credentials(parts[2..]) ==> o.replies == [Text(parts[0] + " OK LOGIN completed")])
      && (|parts| >= 4 && !Credentials(parts[2..]) ==>
            o.replies == [Text(parts[0] + " NO [AUTHENTICATIONFAILED] Invalid credentials")] && o.next == st)
  {
    assert Respond(st, parts) == Login(st, parts[0], parts[2..]);
    LoginOutcome(st, parts[0], parts[2..]);
  }

  lemma LoginOutcome(st: State, tag: string, args: seq<string>)
    ensures var o := Login(st, tag, args);
      && !o.closes
      && (o.next.loggedIn <==> st.loggedIn || (|args| >= 2 && Credentials(args)))
      && o.next.selected == st.selected
      && (|args| < 2 ==> o.replies == [Text(tag + " BAD LOGIN requires username and password")] && o.next == st)
      && (|args| >= 2 && Credentials(args) ==> o.replies == [Text(tag + " OK LOGIN completed")])
      && (|args| >= 2 && !Credentials(args) ==>
            o.replies == [Text(tag + " NO [AUTHENTICATIONFAILED] Invalid credentials")] && o.next == st)
  {
  }

  /** SELECT when logged in: EXISTS, RECENT and UNSEEN, all three, then a
      READ-WRITE OK, and the mailbox is selected; otherwise NO. */
  lemma SelectReplies(st: State, parts: seq<string>)
    requires |parts| >= 2 && Upper(parts[1]) == "SELECT"
    ensures var o := Respond(st, parts);
      && (st.loggedIn ==>
            o.replies == [Text("* 3 EXISTS"), Text("* 3 RECENT"), Text("* OK [UNSEEN 3]"),
                          Text(parts[0] + " OK [READ-WRITE] SELECT completed")]
            && o.next == State(true, true))
      && (!st.loggedIn ==> o.replies == [Text(parts[0] + " NO Not authenticated")] && o.next == st)
  {
    assert Respond(st, parts) == Select(st, parts[0]);
    SelectOutcome(st, parts[0]);
  }

  lemma SelectOutcome(st: State, tag: string)
    ensures var o := Select(st, tag);
      && !o.closes
      && (st.loggedIn ==>
            o.replies == [Text("* 3 EXISTS"), Text("* 3 RECENT"), Text("* OK [UNSEEN 3]"),
                          Text(tag + " OK [READ-WRITE] SELECT completed")]
            && o.next == State(true, true))
      && (!st.loggedIn ==> o.replies == [Text(tag + " NO Not authenticated")] && o.next == st)
  {
    assert |Fixtures| == 3;
    assert NatToString(3) == "3";
    assert "* " + "3" + " EXISTS" == "* 3 EXISTS";
    assert "* " + "3" + " RECENT" == "* 3 RECENT";
    assert "* OK [UNSEEN " + "3" + "]" == "* OK [UNSEEN 3]";
  }

  /** SEARCH with both fields lists messages 1 to 3; otherwise NO. */
  lemma SearchReplies(st: State, parts: seq<string>)
    requires |parts| >= 2 && Upper(parts[1]) == "SEARCH"
    ensures var o := Respond(st, parts);
      && o.next == st
      && (st.loggedIn && st.selected ==>
            o.replies == [Text("* SEARCH 1 2 3"), Text(parts[0] + " OK SEARCH completed")])
      && (!(st.loggedIn && st.selected) ==>
            o.replies == [Text(parts[0] + " NO Not authenticated or no mailbox selected")])
  {
    assert Respond(st, parts) == Search(st, parts[0]);
    SearchOutcome(st, parts[0]);
  }

  lemma SearchOutcome(st: State, tag: string)
    ensures var o := Search(st, tag);
      && o.next == st && !o.closes
      && (st.loggedIn && st.selected ==>
            o.replies == [Text("* SEARCH 1 2 3"), Text(tag + " OK SEARCH completed")])
      && (!(st.loggedIn && st.selected) ==>
            o.replies == [Text(tag + " NO Not authenticated or no mailbox selected")])
  {
    assert |Fixtures| == 3;
    SearchIdsOfThree();
    assert "* SEARCH " + "1 2 3" == "* SEARCH 1 2 3";
  }

  /** FETCH: without both fields NO; with them, a missing or non-numeric
      token BAD, n from 1 to 3 the n-th fixture as a literal then OK, and
      any other number `NO Message not found`. */
  lemma FetchReplies(st: State, parts: seq<string>)
    requires |parts| >= 2 && Upper(parts[1]) == "FETCH"
    ensures var o := Respond(st, parts);
      && o.next == st && !o.closes
      && (!(st.loggedIn && st.selected) ==>
            o.replies == [Text(parts[0] + " NO Not authenticated or no mailbox selected")])
      && (st.loggedIn && st.selected && (|parts| < 3 || ParseInt(parts[2]).None?) ==>
            o.replies == [Text(parts[0] + " BAD Invalid UID")])
      && (st.loggedIn && st.selected && |parts| >= 3 && ParseInt(parts[2]).Some? ==>
            var n := ParseInt(parts[2]).value;
            && (1 <= n <= 3 ==>
                  o.replies == [Literal(parts[2], BuildRfc822(Fixtures[n - 1])),
                                Text(parts[0] + " OK FETCH completed")])
            && (!(1 <= n <= 3) ==> o.replies == [Text(parts[0] + " NO Message not found")]))
  {
    assert Respond(st, parts) == Fetch(st, parts[0], parts[2..]);
    FetchOutcome(st, parts[0], parts[2..]);
  }

  lemma FetchOutcome(st: State, tag: string, args: seq<string>)
    ensures var o := Fetch(st, tag, args);
      && o.next == st && !o.closes
      && (!(st.loggedIn && st.selected) ==>
            o.replies == [Text(tag + " NO Not authenticated or no mailbox selected")])
      && (st.loggedIn && st.selected && (|args| < 1 || ParseInt(args[0]).None?) ==>
            o.replies == [Text(tag + " BAD Invalid UID")])
      && (st.loggedIn && st.selected && |args| >= 1 && ParseInt(args[0]).Some? ==>
            var n := ParseInt(args[0]).value;
            && (1 <= n <= 3 ==>
                  o.replies == [Literal(args[0], BuildRfc822(Fixtures[n - 1])), Text(tag + " OK FETCH completed")])
            && (!(1 <= n <= 3) ==> o.replies == [Text(tag + " NO Message not found")]))
  {
    assert |Fixtures| == 3;
  }

  /** Fewer than two tokens are ignored; LOGOUT says BYE, OK and ends the
      loop; any other keyword outside the six is answered BAD, naming the
      upper-cased keyword. */
  lemma OtherCommands(st: State, parts: seq<string>)
    ensures |parts| < 2 ==> Respond(st, parts) == Outcome([], st, false)
    ensures |parts| >= 2 && Upper(parts[1]) == "LOGOUT" ==>
      Respond(st, parts) == Outcome([Text("* BYE Logging out"), Text(parts[0] + " OK LOGOUT completed")], st, true)
    ensures |parts| >= 2 && Upper(parts[1]) !in {"CAPABILITY", "LOGIN", "SELECT", "SEARCH", "FETCH", "LOGOUT"} ==>
      Respond(st, parts) == Outcome([Text(parts[0] + " BAD Command not recognized: " + Upper(parts[1]))], st, false)
    ensures Respond(st, parts).closes <==> |parts| >= 2 && Upper(parts[1]) == "LOGOUT"
  {
    if |parts| >= 2 {
      CommandKeepsValid(st, parts[0], Upper(parts[1]), parts[2..]);
    }
  }

  /** The backend's server's flags for this server's fields. */
  function Mirror(st: State): BackendImap.State {
    BackendImap.State(st.loggedIn, st.selected)
  }

  /** Both servers leave the same flags and agree on whether the loop ends. */
  predicate SameEffect(o: Outcome, b: BackendImap.Outcome) {
    b.next == Mirror(o.next) && b.closes == o.closes
  }

  /** This server answers every command of two or more tokens, in every
      state; the backend's server, from the same state and tokens, may
      stay silent, and when it does answer, both agree on the new flags. */
  lemma AlwaysAnswers(st: State, parts: seq<string>)
    requires |parts| >= 2
    ensures Respond(st, parts).replies != []
    ensures SameEffect(Respond(st, parts), BackendImap.Respond(Mirror(st), parts))
  {
    var tag, cmd, args := parts[0], Upper(parts[1]), parts[2..];
    assert Respond(st, parts) == Command(st, tag, cmd, args);
    assert BackendImap.Respond(Mirror(st), parts) == BackendImap.Command(Mirror(st), tag, cmd, args);
    CommandsAgree(st, tag, cmd, args);
  }

  lemma CommandsAgree(st: State, tag: string, cmd: string, args: seq<string>)
    ensures Command(st, tag, cmd, args).replies != []
    ensures SameEffect(Command(st, tag, cmd, args), BackendImap.Command(Mirror(st), tag, cmd, args))
  {
    if cmd == "LOGIN" {
      LoginAgrees(st, tag, args);
    } else if cmd == "SELECT" {
      SelectAgrees(st, tag);
    } else if cmd == "SEARCH" {
      SearchAgrees(st, tag);
    } else if cmd == "FETCH" {
      FetchAgrees(st, tag, args);
    }
  }

  lemma LoginAgrees(st: State, tag: string, args: seq<string>)
    ensures Login(st, tag, args).replies != []
    ensures SameEffect(Login(st, tag, args), BackendImap.Login(Mirror(st), tag, args))
  {
  }

  lemma SelectAgrees(st: State, tag: string)
    ensures Select(st, tag).replies != []
    ensures SameEffect(Select(st, tag), BackendImap.Select(Mirror(st), tag))
  {
  }

  lemma SearchAgrees(st: State, tag: string)
    ensures Search(st, tag).replies != []
    ensures SameEffect(Search(st, tag), BackendImap.Search(Mirror(st), tag))
  {
  }

  lemma FetchAgrees(st: State, tag: string, args: seq<string>)
    ensures Fetch(st, tag, args).replies != []
    ensures SameEffect(Fetch(st, tag, args), BackendImap.Fetch(Mirror(st), tag, args))
  {
  }

  /** The backend's server ignores a FETCH before SELECT, which this one answers NO. */
  lemma BackendSilentWhereScriptAnswers()
    ensures BackendImap.Respond(BackendImap.State(false, false), ["a1", "FETCH", "1"]).replies == []
    ensures Respond(State(false, false), ["a1", "FETCH", "1"]).replies
            == [Text("a1" + " NO Not authenticated or no mailbox selected")]
  {
    assert Upper("FETCH") == "FETCH";
    assert ["a1", "FETCH", "1"][1] == "FETCH";
  }

  /** As in the backend's server, the first fixture's `é` twelve code points
      in makes the announced literal shorter than its UTF-8 bytes. The
      statement matches `BackendImap.FirstFixtureIsUndercounted` word for
      word, but `Fixtures` here is this server's own list, whose first body
      differs. */
  lemma FirstFixtureIsUndercounted()
    ensures AnnouncedAsWritten(BuildRfc822(Fixtures[0])) < |Utf8.Encode(BuildRfc822(Fixtures[0]))|
    ensures Announced(BuildRfc822(Fixtures[0])) == |Utf8.Encode(BuildRfc822(Fixtures[0]))|
  {
    assert Fixtures[0].sender[6] == 'é';
    NonAsciiSenderIsUndercounted(Fixtures[0], 6);
  }

  /** The two fields rebuild the state they were read from. */
  lemma FieldsMake(st: State)
    ensures State(st.loggedIn, st.selected) == st
  {
  }

  /** `IMAPClientHandler`. */
  class ImapClientHandler {
    var loggedIn: bool
    var selected: bool

    constructor ()
      ensures !loggedIn && !selected
    {
      loggedIn := false;
      selected := false;
    }

    predicate Valid()
      reads this
    {
      selected ==> loggedIn
    }

    /** One pass of `handle`'s loop body for a non-empty command: the
        replies it sends, with both fields set as the command leaves them. */
    method Serve(command: string) returns (o: Outcome)
      modifies this
      ensures o == Step(old(State(loggedIn, selected)), command)
      ensures State(loggedIn, selected) == o.next
    {
      o := Step(State(loggedIn, selected), command);
      loggedIn, selected := o.next.loggedIn, o.next.selected;
      FieldsMake(o.next);
    }

    /** `handle`: the greeting, then one command per received chunk until
        `recv` comes back empty or the client logs out; the fields end as
        the session leaves them. */
    method Handle(inbox: seq<Recv>) returns (sent: seq<Reply>)
      modifies this
      ensures sent == [Text(Greeting)] + Session(old(State(loggedIn, selected)), inbox).0
      ensures State(loggedIn, selected) == Session(old(State(loggedIn, selected)), inbox).1
      ensures old(Valid()) ==> Valid()
    {
      ghost var st0 := State(loggedIn, selected);
      ghost var total := Session(st0, inbox);
      if Valid() {
        SessionKeepsValid(st0, inbox);
      }
      sent := [Text(Greeting)];
      var i := 0;
      assert inbox[0..] == inbox;
      while i < |inbox|
        invariant 0 <= i <= |inbox|
        invariant [Text(Greeting)] + total.0 == sent + Session(State(loggedIn, selected), inbox[i..]).0
        invariant total.1 == Session(State(loggedIn, selected), inbox[i..]).1
      {
        SessionAt(State(loggedIn, selected), inbox, i);
        if inbox[i].Closed? {
          return;
        }
        var command := Strip(inbox[i].text);
        if command == "" {
          return;
        }
        var o := Serve(command);
        if o.closes {
          sent := sent + o.replies;
          return;
        }
        AppendAssoc(sent, o.replies, Session(o.next, inbox[i + 1..]).0);
        sent := sent + o.replies;
        i := i + 1;
      }
      assert inbox[i..] == [];
    }
  }
}
