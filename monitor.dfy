/** The mail poller (backend/src/email_monitor.py). Every cycle of its loop
    connects when there is no session, searches the mailbox, fetches each
    candidate it has not processed yet, hands the new e-mails to a callback
    and waits.

    The IMAP session, the MIME parser and the header decoder are library
    calls. What they answer is an input here: a cycle receives an `Attempt`
    (how connecting went, whether the cycle was interrupted, what the search
    found and what each fetch returned), and header and payload decoding go
    through the uninterpreted functions of a `Codec`. */
module Monitor {
  import opened Base
  import opened Json
  import opened Records
  import PyText
  import Config

  // ----- body text -----

  /** Longer bodies are cut to this many characters. */
  const BodyLimit: nat := 5000

  /** `body[:5000] + '...'` for a body longer than 5000 characters. */
  function TruncateBody(d: string): string {
    if |d| > BodyLimit then d[..BodyLimit] + "..." else d
  }

  /** The body text stored for a decoded body: truncated, then stripped. */
  function BodyText(d: string): string {
    PyText.Strip(TruncateBody(d))
  }

  /** The stored body never exceeds 5003 characters; a long body becomes its
      first 5000 characters, without their leading white space, and `...`
      (the dots protect the cut from the right strip). */
  lemma BodyTextBounds(d: string)
    ensures |BodyText(d)| <= BodyLimit + 3
    ensures |d| <= BodyLimit ==> BodyText(d) == PyText.Strip(d)
    ensures |d| > BodyLimit ==> BodyText(d) == PyText.StripLeft(d[..BodyLimit]) + "..."
  {
    if |d| > BodyLimit {
      PyText.StripLeftAppend(d[..BodyLimit], "...");
      var t := PyText.StripLeft(d[..BodyLimit]) + "...";
      assert !PyText.IsSpace(t[|t| - 1]);
    }
  }

  // ----- library calls -----

  /** One piece `decode_header` returns: text as it stands, or bytes with the
      charset they were declared in (`""` when none was). */
  datatype HeaderChunk = Raw(text: string) | Encoded(bytes: seq<bv8>, charset: string)

  /** The library calls the poller makes on a message, uninterpreted; `None`
      where the call raises. `decodeBytes` is `bytes.decode(charset,
      errors='ignore')`, which raises only for an unknown charset. */
  datatype Codec = Codec(
    decodeHeader: string -> Option<seq<HeaderChunk>>,
    decodeBytes: (seq<bv8>, string) -> Option<string>)

  /** `charset or 'utf-8'`. */
  function CharsetOr(charset: string): string {
    if charset == "" then "utf-8" else charset
  }

  function ChunkText(c: HeaderChunk, codec: Codec): Option<string> {
    match c
    case Raw(t) => Some(t)
    case Encoded(b, cs) => codec.decodeBytes(b, CharsetOr(cs))
  }

  /** The decoded chunks joined, or `None` once one of them raises. */
  function JoinChunks(cs: seq<HeaderChunk>, codec: Codec): Option<string> {
    if cs == [] then Some("")
    else match JoinChunks(cs[..|cs| - 1], codec)
      case None => None
      case Some(s) =>
        match ChunkText(cs[|cs| - 1], codec)
        case None => None
        case Some(t) => Some(s + t)
  }

  /** Joining fails exactly when some chunk cannot be decoded. */
  lemma {:induction false} JoinChunksFailsIff(cs: seq<HeaderChunk>, codec: Codec)
    ensures JoinChunks(cs, codec).None? <==> exists i :: 0 <= i < |cs| && ChunkText(cs[i], codec).None?
  {
    if cs != [] {
      var init := cs[..|cs| - 1];
      JoinChunksFailsIff(init, codec);
      if exists i :: 0 <= i < |cs| && ChunkText(cs[i], codec).None? {
        var i :| 0 <= i < |cs| && ChunkText(cs[i], codec).None?;
        if i < |init| {
          assert init[i] == cs[i];
        }
      }
      if exists i :: 0 <= i < |init| && ChunkText(init[i], codec).None? {
        var i :| 0 <= i < |init| && ChunkText(init[i], codec).None?;
        assert cs[i] == init[i];
      }
    }
  }

  /** `_decode_header_value`: an empty header is `''`, and whatever raises
      falls back to the raw value. */
  function HeaderText(v: string, codec: Codec): (r: string)
    ensures v == "" ==> r == ""
    ensures v != "" && codec.decodeHeader(v).None? ==> r == v
    ensures v != "" && codec.decodeHeader(v).Some? && JoinChunks(codec.decodeHeader(v).value, codec).None? ==> r == v
  {
    if v == "" then ""
    else match codec.decodeHeader(v)
      case None => v
      case Some(cs) =>
        match JoinChunks(cs, codec)
        case None => v
        case Some(s) => s
  }

  /** A header the library hands back as one plain chunk reads as itself. */
  lemma PlainHeaderIsKept(v: string, codec: Codec)
    requires codec.decodeHeader(v) == Some([Raw(v)])
    ensures HeaderText(v, codec) == v
  {
    assert [Raw(v)][..0] == [];
    assert JoinChunks([Raw(v)], codec) == Some("" + v);
    assert "" + v == v;
  }

  /** `_decode_header_value` with its accumulating loop. */
  method DecodeHeaderValue(v: string, codec: Codec) returns (r: string)
    ensures r == HeaderText(v, codec)
  {
    if v == "" {
      return "";
    }
    var parts := codec.decodeHeader(v);
    if parts.None? {
      return v;
    }
    var cs := parts.value;
    var decoded := "";
    var i := 0;
    while i < |cs|
      invariant 0 <= i <= |cs|
      invariant JoinChunks(cs[..i], codec) == Some(decoded)
    {
      assert cs[..i + 1][..i] == cs[..i];
      var t := ChunkText(cs[i], codec);
      if t.None? {
        JoinChunksFailsIff(cs, codec);
        return v;
      }
      decoded := decoded + t.value;
      i := i + 1;
    }
    assert cs[..|cs|] == cs;
    r := decoded;
  }

  /** One part as `walk()` yields it. `payload` is `get_payload(decode=True)`
      with `None` read as empty; `charset` is `get_content_charset()`, `""`
      when there is none. */
  datatype MimePart = MimePart(contentType: string, disposition: string, payload: seq<bv8>, charset: string)

  /** A parsed message: its headers, and either its parts in walk order or
      its own payload. */
  datatype Message = Message(
    headers: map<string, string>,
    multipart: bool,
    parts: seq<MimePart>,
    payload: seq<bv8>,
    charset: string)

  /** A part the body is taken from: plain text, not an attachment, and a
      non-empty payload. */
  predicate IsTextBody(p: MimePart) {
    p.contentType == "text/plain" && !PyText.Contains(p.disposition, "attachment") && p.payload != []
  }

  /** Where the walk stops: the first part the body is taken from. */
  function FirstTextPart(parts: seq<MimePart>): (r: Option<nat>)
    ensures r.Some? ==> r.value < |parts| && IsTextBody(parts[r.value])
    ensures r.Some? ==> forall j :: 0 <= j < r.value ==> !IsTextBody(parts[j])
    ensures r.None? ==> forall j :: 0 <= j < |parts| ==> !IsTextBody(parts[j])
  {
    if parts == [] then None
    else if IsTextBody(parts[0]) then Some(0)
    else match FirstTextPart(parts[1..])
      case None => None
      case Some(k) => Some(k + 1)
  }

  /** The decoded body before truncation: `''` when there is no suitable
      payload, `None` when decoding raises. */
  function DecodedBody(m: Message, codec: Codec): Option<string> {
    if m.multipart then
      match FirstTextPart(m.parts)
      case None => Some("")
      case Some(i) => codec.decodeBytes(m.parts[i].payload, CharsetOr(m.parts[i].charset))
    else if m.payload == [] then Some("")
    else codec.decodeBytes(m.payload, CharsetOr(m.charset))
  }

  /** `_get_email_body`. */
  function GetEmailBody(m: Message, codec: Codec): (r: string)
    ensures |r| <= BodyLimit + 3
    ensures DecodedBody(m, codec).None? ==> r == ""
  {
    match DecodedBody(m, codec)
    case None => ""
    case Some(b) => BodyTextBounds(b); BodyText(b)
  }

  /** `message.get(name, default)`. */
  function HeaderOr(m: Message, name: string, default: string): string {
    if name in m.headers then m.headers[name] else default
  }

  /** `_fetch_email`: `reply` is the parsed message when the fetch answered
      OK, `None` when it did not or raised; `fetchedAt` is the clock reading. */
  function FetchEmail(id: string, reply: Option<Message>, fetchedAt: string, codec: Codec): (r: Option<Email>)
    ensures r.Some? <==> reply.Some?
    ensures r.Some? ==> && r.value.id == id && r.value.unread && r.value.savedAt.None?
                        && r.value.timestamp == fetchedAt && r.value.date == HeaderOr(reply.value, "Date", "")
                        && r.value.body == GetEmailBody(reply.value, codec)
  {
    match reply
    case None => None
    case Some(m) =>
      Some(Email(
        id := id,
        subject := HeaderText(HeaderOr(m, "Subject", "Sin asunto"), codec),
        sender := HeaderText(HeaderOr(m, "From", "Desconocido"), codec),
        recipient := HeaderText(HeaderOr(m, "To", ""), codec),
        date := HeaderOr(m, "Date", ""),
        body := GetEmailBody(m, codec),
        timestamp := fetchedAt,
        unread := true,
        savedAt := None))
  }

  /** A message without the headers gets the defaults, as long as the
      decoder leaves plain text alone. */
  lemma FetchEmailDefaults(id: string, m: Message, fetchedAt: string, codec: Codec)
    requires "Subject" !in m.headers && "From" !in m.headers && "To" !in m.headers
    requires codec.decodeHeader("Sin asunto") == Some([Raw("Sin asunto")])
    requires codec.decodeHeader("Desconocido") == Some([Raw("Desconocido")])
    ensures FetchEmail(id, Some(m), fetchedAt, codec).value.subject == "Sin asunto"
    ensures FetchEmail(id, Some(m), fetchedAt, codec).value.sender == "Desconocido"
    ensures FetchEmail(id, Some(m), fetchedAt, codec).value.recipient == ""
  {
    PlainHeaderIsKept("Sin asunto", codec);
    PlainHeaderIsKept("Desconocido", codec);
  }

  // ----- one fetch pass -----

  /** A search hit: its id and what fetching it returned. */
  datatype Candidate = Candidate(id: string, reply: Option<Message>, fetchedAt: string)

  /** What `search(None, 'UNSEEN')` answered: not OK (or raised), or the hits in order. */
  datatype SearchReply = SearchFailed | SearchOk(candidates: seq<Candidate>)

  /** The new e-mails of a pass and the processed set after it. */
  datatype Fetched = Fetched(emails: seq<Email>, seen: set<string>)

  /** The loop of `_fetch_new_emails` over the hits: skip processed ids,
      keep and mark each successful fetch. */
  function Dedup(cands: seq<Candidate>, seen: set<string>, codec: Codec): Fetched {
    if cands == [] then Fetched([], seen)
    else Admit(Dedup(cands[..|cands| - 1], seen, codec), cands[|cands| - 1], codec)
  }

  /** One iteration of that loop: a processed id is skipped, otherwise a
      successful fetch is kept and marked. */
  function Admit(r: Fetched, c: Candidate, codec: Codec): Fetched {
    if c.id in r.seen then r
    else match FetchEmail(c.id, c.reply, c.fetchedAt, codec)
      case None => r
      case Some(e) => Fetched(r.emails + [e], r.seen + {c.id})
  }

  /** The pass over the first `i + 1` hits is the pass over the first `i`, then hit `i`. */
  lemma DedupPrefix(cands: seq<Candidate>, i: nat, seen: set<string>, codec: Codec)
    requires i < |cands|
    ensures Dedup(cands[..i + 1], seen, codec) == Admit(Dedup(cands[..i], seen, codec), cands[i], codec)
  {
    assert cands[..i + 1][..i] == cands[..i];
  }

  /** An iteration only ever appends, so e-mails found before it stay in front. */
  lemma AdmitAfter(prefix: seq<Email>, r: Fetched, c: Candidate, codec: Codec)
    ensures Admit(Fetched(prefix + r.emails, r.seen), c, codec)
      == Fetched(prefix + Admit(r, c, codec).emails, Admit(r, c, codec).seen)
  {
    if c.id !in r.seen && c.reply.Some? {
      var e := FetchEmail(c.id, c.reply, c.fetchedAt, codec).value;
      AppendAssoc(prefix, r.emails, [e]);
    }
  }

  /** The ids of a list of e-mails. */
  function Ids(es: seq<Email>): seq<string> {
    seq(|es|, i requires 0 <= i < |es| => es[i].id)
  }

  /** The ids whose fetch succeeded somewhere among the hits. */
  function FetchedIds(cands: seq<Candidate>): set<string> {
    set k | 0 <= k < |cands| && cands[k].reply.Some? :: cands[k].id
  }

  /** The ids fetched among some hits and one more. */
  lemma FetchedIdsSnoc(cands: seq<Candidate>)
    requires cands != []
    ensures var c := cands[|cands| - 1];
      FetchedIds(cands) == FetchedIds(cands[..|cands| - 1]) + (if c.reply.Some? then {c.id} else {})
  {
    var init := cands[..|cands| - 1];
    var c := cands[|cands| - 1];
    forall x | x in FetchedIds(cands) ensures x in FetchedIds(init) + (if c.reply.Some? then {c.id} else {}) {
      var k :| 0 <= k < |cands| && cands[k].reply.Some? && cands[k].id == x;
      if k < |init| {
        assert init[k] == cands[k];
      }
    }
    forall x | x in FetchedIds(init) ensures x in FetchedIds(cands) {
      var k :| 0 <= k < |init| && init[k].reply.Some? && init[k].id == x;
      assert cands[k] == init[k];
    }
  }

  /** After a pass the processed set is the old one plus every id fetched. */
  lemma {:induction false} DedupSeen(cands: seq<Candidate>, seen: set<string>, codec: Codec)
    ensures Dedup(cands, seen, codec).seen == seen + FetchedIds(cands)
  {
    if cands != [] {
      DedupSeen(cands[..|cands| - 1], seen, codec);
      FetchedIdsSnoc(cands);
    }
  }

  lemma IdsSnoc(es: seq<Email>, e: Email)
    ensures Ids(es + [e]) == Ids(es) + [e.id]
    ensures Elements(Ids(es + [e])) == Elements(Ids(es)) + {e.id}
  {
    assert Ids(es + [e]) == Ids(es) + [e.id];
  }

  /** The new e-mails of a pass are exactly the fetched ids that were not
      processed before, each once. */
  lemma {:induction false} DedupDelivers(cands: seq<Candidate>, seen: set<string>, codec: Codec)
    ensures Elements(Ids(Dedup(cands, seen, codec).emails)) == FetchedIds(cands) - seen
    ensures NoDuplicates(Ids(Dedup(cands, seen, codec).emails))
  {
    if cands != [] {
      var init := cands[..|cands| - 1];
      var c := cands[|cands| - 1];
      DedupDelivers(init, seen, codec);
      DedupSeen(init, seen, codec);
      FetchedIdsSnoc(cands);
      var r := Dedup(init, seen, codec);
      if c.id !in r.seen && c.reply.Some? {
        var e := FetchEmail(c.id, c.reply, c.fetchedAt, codec).value;
        assert Dedup(cands, seen, codec).emails == r.emails + [e];
        IdsSnoc(r.emails, e);
        NoDuplicatesSnoc(Ids(r.emails), c.id);
      }
    }
  }

  /** Two passes in a row are one pass over both lists of hits: the new
      e-mails keep search order, and the second pass starts from what the
      first one marked. */
  lemma {:induction false} DedupAppend(a: seq<Candidate>, b: seq<Candidate>, seen: set<string>, codec: Codec)
    ensures var r := Dedup(a, seen, codec);
      Dedup(a + b, seen, codec) == Fetched(r.emails + Dedup(b, r.seen, codec).emails, Dedup(b, r.seen, codec).seen)
    decreases |b|
  {
    if b == [] {
      assert a + b == a;
    } else {
      var b' := b[..|b| - 1];
      assert (a + b)[..|a + b| - 1] == a + b';
      assert (a + b)[|a + b| - 1] == b[|b| - 1];
      DedupAppend(a, b', seen, codec);
      AdmitAfter(Dedup(a, seen, codec).emails, Dedup(b', Dedup(a, seen, codec).seen, codec), b[|b| - 1], codec);
    }
  }

  /** A hit whose fetch failed is not marked, so a later pass that fetches
      it delivers it. */
  lemma FailedFetchIsRetried(first: seq<Candidate>, second: seq<Candidate>, seen: set<string>, x: string, codec: Codec)
    requires x !in seen
    requires forall k :: 0 <= k < |first| && first[k].id == x ==> first[k].reply.None?
    requires exists k :: 0 <= k < |second| && second[k].id == x && second[k].reply.Some?
    ensures x !in Dedup(first, seen, codec).seen
    ensures x in Ids(Dedup(second, Dedup(first, seen, codec).seen, codec).emails)
  {
    DedupSeen(first, seen, codec);
    assert x !in FetchedIds(first);
    var s1 := Dedup(first, seen, codec).seen;
    DedupDelivers(second, s1, codec);
    var k :| 0 <= k < |second| && second[k].id == x && second[k].reply.Some?;
    assert x in FetchedIds(second);
    assert x in Elements(Ids(Dedup(second, s1, codec).emails));
  }

  // ----- the monitor loop -----

  /** An open IMAP session: whether the login was accepted, and whether
      INBOX is selected. */
  datatype Handle = Handle(authenticated: bool, selected: bool)

  /** How `_connect` went: the socket could not be opened; the login was
      refused; `select('INBOX')` answered NO, which does not raise; `select`
      raised, after leaving the mailbox `selected` or not (a BAD answer or a
      dropped connection leaves it unselected, `IMAP4.readonly` is raised
      after the state became SELECTED); or the session is logged in with
      INBOX selected. */
  datatype ConnectOutcome = OpenFailed | LoginFailed | SelectRefused | SelectRaised(selected: bool) | Connected

  /** What the `time.sleep(check_interval)` that ends a pass raises when the
      interval itself is valid: nothing, `IMAP4.abort`, or another exception.
      Everything before it in the loop body catches its own exceptions. */
  datatype Fault = NoFault | Abort | OtherError

  /** Everything the outside world contributes to one cycle. */
  datatype Attempt = Attempt(connect: ConnectOutcome, search: SearchReply, fault: Fault)

  /** The session and processed set after a cycle, what it handed to the
      callback, and how long it then waits. */
  datatype Poll = Poll(session: Option<Handle>, seen: set<string>, delivered: seq<Email>, delay: nat)

  const ConnectRetryDelay: nat := 30
  const AbortDelay: nat := 5
  const ErrorDelay: nat := 10

  /** What `_connect` leaves in `_imap`, and what it returns. */
  datatype Connection = Connection(session: Option<Handle>, ok: bool)

  /** `_connect` as written: the session is stored before `login`, so a
      refused login or a `select` that raises leaves a session behind while
      reporting failure, and a refused `select` still reports success. */
  function ConnectAsWritten(outcome: ConnectOutcome): (r: Connection)
    ensures r.session.None? <==> outcome == OpenFailed
    ensures r.ok <==> outcome == SelectRefused || outcome == Connected
    ensures r.session.Some? && !r.ok <==> outcome == LoginFailed || outcome.SelectRaised?
    ensures r.session.Some? ==> (r.session.value.authenticated <==> outcome != LoginFailed)
    ensures (r.session.Some? && r.session.value.selected) <==> outcome == Connected || outcome == SelectRaised(true)
  {
    match outcome
    case OpenFailed => Connection(None, false)
    case LoginFailed => Connection(Some(Handle(false, false)), false)
    case SelectRefused => Connection(Some(Handle(true, false)), true)
    case SelectRaised(selected) => Connection(Some(Handle(true, selected)), false)
    case Connected => Connection(Some(Handle(true, true)), true)
  }

  /** `_connect` corrected: a session is kept only once it is logged in
      with INBOX selected. */
  function Connect(outcome: ConnectOutcome): (r: Option<Handle>)
    ensures r.Some? <==> outcome == Connected
    ensures r.Some? ==> r.value == Handle(true, true)
  {
    if outcome == Connected then Some(Handle(true, true)) else None
  }

  /** A session a search can be run on. */
  predicate Usable(h: Handle) {
    h.authenticated && h.selected
  }

  /** `_fetch_new_emails`: a search outside the selected state raises,
      which, like a non-OK answer or a dropped connection, yields `[]` and
      marks nothing. */
  function FetchPass(session: Option<Handle>, reply: SearchReply, seen: set<string>, codec: Codec): Fetched {
    if session.None? || !Usable(session.value) || reply.SearchFailed? then Fetched([], seen)
    else Dedup(reply.candidates, seen, codec)
  }

  /** The part of a cycle once a session exists: the pass, the callbacks,
      then `time.sleep(check_interval)`. A negative interval raises
      ValueError there; an exception from the sleep drops the session, but
      the pass's e-mails were handed over and marked already. */
  function AfterConnect(h: Handle, seen: set<string>, a: Attempt, checkInterval: int, codec: Codec): Poll {
    var f := FetchPass(Some(h), a.search, seen, codec);
    if checkInterval < 0 || a.fault == OtherError then Poll(None, f.seen, f.emails, ErrorDelay)
    else if a.fault == Abort then Poll(None, f.seen, f.emails, AbortDelay)
    else Poll(Some(h), f.seen, f.emails, checkInterval)
  }

  /** One iteration of `_monitor_loop`, with `_connect` as written. */
  function CycleAsWritten(session: Option<Handle>, seen: set<string>, a: Attempt, checkInterval: int, codec: Codec): Poll {
    match session
    case Some(h) => AfterConnect(h, seen, a, checkInterval, codec)
    case None =>
      var c := ConnectAsWritten(a.connect);
      if !c.ok then Poll(c.session, seen, [], ConnectRetryDelay)
      else AfterConnect(c.session.value, seen, a, checkInterval, codec)
  }

  /** One iteration of `_monitor_loop` with the corrected `Connect`. */
  function Cycle(session: Option<Handle>, seen: set<string>, a: Attempt, checkInterval: int, codec: Codec): Poll {
    match session
    case Some(h) => AfterConnect(h, seen, a, checkInterval, codec)
    case None =>
      match Connect(a.connect)
      case None => Poll(None, seen, [], ConnectRetryDelay)
      case Some(h) => AfterConnect(h, seen, a, checkInterval, codec)
  }

  /** The back-off policy of the loop as written: a failed `_connect` waits
      30 s and fetches nothing; otherwise the pass's e-mails are delivered
      and marked whatever happens next, and then a valid interval with no
      exception keeps the session and waits that interval, an abort drops
      it and waits 5 s, and a negative interval or any other exception drops
      it and waits 10 s. */
  lemma DelayPolicy(session: Option<Handle>, seen: set<string>, a: Attempt, checkInterval: int, codec: Codec)
    ensures var p := CycleAsWritten(session, seen, a, checkInterval, codec);
      && (session.None? && !ConnectAsWritten(a.connect).ok ==>
            p == Poll(ConnectAsWritten(a.connect).session, seen, [], ConnectRetryDelay))
      && (session.Some? || ConnectAsWritten(a.connect).ok ==>
            var h := if session.Some? then session.value else ConnectAsWritten(a.connect).session.value;
            var f := FetchPass(Some(h), a.search, seen, codec);
            && p.delivered == f.emails && p.seen == f.seen
            && (checkInterval >= 0 && a.fault == NoFault ==> p.session == Some(h) && p.delay == checkInterval)
            && (checkInterval >= 0 && a.fault == Abort ==> p.session.None? && p.delay == AbortDelay)
            && (checkInterval < 0 || a.fault == OtherError ==> p.session.None? && p.delay == ErrorDelay))
  {
  }

  /** A session the corrected loop may hold: logged in, INBOX selected. */
  predicate Healthy(session: Option<Handle>) {
    session.Some? ==> Usable(session.value)
  }

  /** The corrected cycle never leaves a session a search cannot use, and a
      refused login or a refused or raising `select` leaves no session at all. */
  lemma CycleKeepsSessionHealthy(session: Option<Handle>, seen: set<string>, a: Attempt, checkInterval: int, codec: Codec)
    requires Healthy(session)
    ensures Healthy(Cycle(session, seen, a, checkInterval, codec).session)
    ensures a.connect != Connected && session.None? ==> Cycle(session, seen, a, checkInterval, codec).session.None?
  {
  }

  /** With the source's `_connect`, one refused login leaves a session that
      no later fault-free cycle replaces or gets anything out of. */
  lemma LoginFailureIsSticky(seen: set<string>, first: Attempt, next: Attempt, checkInterval: nat, codec: Codec)
    requires first.connect == LoginFailed && next.fault == NoFault
    ensures CycleAsWritten(None, seen, first, checkInterval, codec) == Poll(Some(Handle(false, false)), seen, [], ConnectRetryDelay)
    ensures CycleAsWritten(Some(Handle(false, false)), seen, next, checkInterval, codec)
      == Poll(Some(Handle(false, false)), seen, [], checkInterval)
  {
  }

  /** With the source's `_connect`, a refused `select` counts as connected:
      the logged-in but unselected session is kept, and neither that cycle
      nor any later fault-free one gets anything out of it. */
  lemma SelectRefusalIsSticky(seen: set<string>, first: Attempt, next: Attempt, checkInterval: nat, codec: Codec)
    requires first.connect == SelectRefused && first.fault == NoFault && next.fault == NoFault
    ensures CycleAsWritten(None, seen, first, checkInterval, codec) == Poll(Some(Handle(true, false)), seen, [], checkInterval)
    ensures CycleAsWritten(Some(Handle(true, false)), seen, next, checkInterval, codec)
      == Poll(Some(Handle(true, false)), seen, [], checkInterval)
  {
  }

  /** With the source's `_connect`, a `select` that raises reports failure
      but leaves the logged-in session stored, so the loop waits 30 s and
      never reconnects. After `IMAP4.readonly` that session is selected and
      the next cycle polls it as if connecting had succeeded; otherwise it
      is stuck, as `StuckSessionDeliversNothing` states. */
  lemma RaisingSelectKeepsSession(seen: set<string>, first: Attempt, next: Attempt, checkInterval: nat, codec: Codec)
    requires first.connect.SelectRaised? && next.fault == NoFault
    ensures CycleAsWritten(None, seen, first, checkInterval, codec)
      == Poll(Some(Handle(true, first.connect.selected)), seen, [], ConnectRetryDelay)
    ensures first.connect.selected ==>
      var f := FetchPass(Some(Handle(true, true)), next.search, seen, codec);
      CycleAsWritten(Some(Handle(true, true)), seen, next, checkInterval, codec)
        == Poll(Some(Handle(true, true)), f.seen, f.emails, checkInterval)
    ensures !first.connect.selected ==> !Usable(Handle(true, first.connect.selected))
  {
  }

  /** The input that shows it: a refused login followed by a cycle whose
      login and search would succeed. As written nothing is delivered; with
      the corrected connection the new message is. */
  lemma LoginFailureCounterexample(m: Message, codec: Codec)
    ensures var first := Attempt(LoginFailed, SearchFailed, NoFault);
      var next := Attempt(Connected, SearchOk([Candidate("1", Some(m), "t")]), NoFault);
      var w := CycleAsWritten(None, {}, first, 60, codec);
      var c := Cycle(None, {}, first, 60, codec);
      && CycleAsWritten(w.session, w.seen, next, 60, codec).delivered == []
      && |Cycle(c.session, c.seen, next, 60, codec).delivered| == 1
  {
    var first := Attempt(LoginFailed, SearchFailed, NoFault);
    var next := Attempt(Connected, SearchOk([Candidate("1", Some(m), "t")]), NoFault);
    LoginFailureIsSticky({}, first, next, 60, codec);
    DeliversTheOne(m, codec);
  }

  /** The same for a refused `select`: as written the next cycle searches
      the unselected session and delivers nothing; corrected, it connects
      again and delivers the new message. */
  lemma SelectRefusalCounterexample(m: Message, codec: Codec)
    ensures var first := Attempt(SelectRefused, SearchFailed, NoFault);
      var next := Attempt(Connected, SearchOk([Candidate("1", Some(m), "t")]), NoFault);
      var w := CycleAsWritten(None, {}, first, 60, codec);
      var c := Cycle(None, {}, first, 60, codec);
      && CycleAsWritten(w.session, w.seen, next, 60, codec).delivered == []
      && |Cycle(c.session, c.seen, next, 60, codec).delivered| == 1
  {
    var first := Attempt(SelectRefused, SearchFailed, NoFault);
    var next := Attempt(Connected, SearchOk([Candidate("1", Some(m), "t")]), NoFault);
    SelectRefusalIsSticky({}, first, next, 60, codec);
    DeliversTheOne(m, codec);
  }

  /** A fresh login whose search finds one readable new message delivers it. */
  lemma DeliversTheOne(m: Message, codec: Codec)
    ensures |Cycle(None, {}, Attempt(Connected, SearchOk([Candidate("1", Some(m), "t")]), NoFault), 60, codec).delivered| == 1
  {
    var c := Candidate("1", Some(m), "t");
    FreshLoginDelivers([c], {}, 60, codec);
    SingleHitDelivered(c, {}, codec);
  }

  /** A fresh login with no exception delivers what the dedup pass finds. */
  lemma FreshLoginDelivers(cands: seq<Candidate>, seen: set<string>, checkInterval: nat, codec: Codec)
    ensures Cycle(None, seen, Attempt(Connected, SearchOk(cands), NoFault), checkInterval, codec).delivered
      == Dedup(cands, seen, codec).emails
  {
  }

  /** A single hit that was not processed and whose fetch answers is delivered. */
  lemma SingleHitDelivered(c: Candidate, seen: set<string>, codec: Codec)
    requires c.id !in seen && c.reply.Some?
    ensures |Dedup([c], seen, codec).emails| == 1
  {
    assert [c][..0] == [];
  }

  /** The monitor's state after a run of cycles. */
  datatype Loop = Loop(session: Option<Handle>, seen: set<string>, delivered: seq<Email>, delays: seq<nat>)

  /** `_monitor_loop`, as written, over a sequence of cycles. */
  function Run(session: Option<Handle>, seen: set<string>, attempts: seq<Attempt>, checkInterval: int, codec: Codec): Loop {
    if attempts == [] then Loop(session, seen, [], [])
    else
      var r := Run(session, seen, attempts[..|attempts| - 1], checkInterval, codec);
      var p := CycleAsWritten(r.session, r.seen, attempts[|attempts| - 1], checkInterval, codec);
      Loop(p.session, p.seen, r.delivered + p.delivered, r.delays + [p.delay])
  }

  /** A session left unusable by `_connect` is never replaced while no
      exception ends a cycle: the loop polls it forever, delivering nothing
      and waiting the configured interval each time. */
  lemma {:induction false} StuckSessionDeliversNothing(h: Handle, seen: set<string>, attempts: seq<Attempt>,
                                                      checkInterval: nat, codec: Codec)
    requires !Usable(h)
    requires forall i :: 0 <= i < |attempts| ==> attempts[i].fault == NoFault
    ensures var r := Run(Some(h), seen, attempts, checkInterval, codec);
      && r.session == Some(h) && r.seen == seen && r.delivered == []
      && |r.delays| == |attempts|
      && (forall i :: 0 <= i < |r.delays| ==> r.delays[i] == checkInterval)
  {
    if attempts != [] {
      StuckSessionDeliversNothing(h, seen, attempts[..|attempts| - 1], checkInterval, codec);
    }
  }

  /** `after` is `seen` plus exactly the ids of `delivered`, each delivered
      once and none of them in `seen` before. */
  predicate MarksDelivered(seen: set<string>, after: set<string>, delivered: seq<Email>) {
    && after == seen + Elements(Ids(delivered))
    && NoDuplicates(Ids(delivered))
    && (forall i :: 0 <= i < |delivered| ==> delivered[i].id !in seen)
  }

  /** A pass marks exactly what it returns. */
  lemma FetchPassMarks(session: Option<Handle>, reply: SearchReply, seen: set<string>, codec: Codec)
    ensures var f := FetchPass(session, reply, seen, codec); MarksDelivered(seen, f.seen, f.emails)
  {
    var f := FetchPass(session, reply, seen, codec);
    if reply.SearchOk? {
      DedupSeen(reply.candidates, seen, codec);
      DedupDelivers(reply.candidates, seen, codec);
    }
    forall i | 0 <= i < |f.emails| ensures f.emails[i].id !in seen {
      assert Ids(f.emails)[i] in Elements(Ids(f.emails));
    }
  }

  /** A cycle, as written or corrected, marks exactly what it delivers and
      delivers nothing already marked, even when the sleep after the pass
      raises. */
  lemma CycleMarksDelivered(session: Option<Handle>, seen: set<string>, a: Attempt, checkInterval: int, codec: Codec)
    ensures var p := CycleAsWritten(session, seen, a, checkInterval, codec); MarksDelivered(seen, p.seen, p.delivered)
    ensures var p := Cycle(session, seen, a, checkInterval, codec); MarksDelivered(seen, p.seen, p.delivered)
  {
    FetchPassMarks(session, a.search, seen, codec);
    FetchPassMarks(ConnectAsWritten(a.connect).session, a.search, seen, codec);
    FetchPassMarks(Connect(a.connect), a.search, seen, codec);
  }

  /** Over the whole life of the loop no e-mail is handed to the callback
      twice, and the processed set is the initial one plus what was handed over. */
  lemma {:induction false} RunNeverRedelivers(session: Option<Handle>, seen: set<string>, attempts: seq<Attempt>,
                                             checkInterval: int, codec: Codec)
    ensures var r := Run(session, seen, attempts, checkInterval, codec);
      MarksDelivered(seen, r.seen, r.delivered) && |r.delays| == |attempts|
  {
    if attempts != [] {
      var init := attempts[..|attempts| - 1];
      RunNeverRedelivers(session, seen, init, checkInterval, codec);
      var r := Run(session, seen, init, checkInterval, codec);
      var a := attempts[|attempts| - 1];
      CycleMarksDelivered(r.session, r.seen, a, checkInterval, codec);
      var p := CycleAsWritten(r.session, r.seen, a, checkInterval, codec);
      JoinDeliveries(seen, r.seen, p.seen, r.delivered, p.delivered);
    }
  }

  /** Two runs of deliveries, the second starting from the marks the first
      left, deliver nothing twice between them. */
  lemma JoinDeliveries(seen: set<string>, mid: set<string>, after: set<string>, d1: seq<Email>, d2: seq<Email>)
    requires MarksDelivered(seen, mid, d1) && MarksDelivered(mid, after, d2)
    ensures MarksDelivered(seen, after, d1 + d2)
  {
    var all := d1 + d2;
    assert Ids(all) == Ids(d1) + Ids(d2);
    forall i, j | 0 <= i < j < |Ids(all)| ensures Ids(all)[i] != Ids(all)[j] {
      if i < |d1| && j >= |d1| {
        assert Ids(d1)[i] in Elements(Ids(d1));
        assert all[j] == d2[j - |d1|];
      }
    }
    forall i | 0 <= i < |all| ensures all[i].id !in seen {
      if i >= |d1| {
        assert all[i] == d2[i - |d1|];
      }
    }
    assert Elements(Ids(all)) == Elements(Ids(d1)) + Elements(Ids(d2));
  }

  /** The outcome of `start`. */
  datatype StartOutcome = AlreadyRunning | Started | Refused

  class EmailMonitor {
    /** `_running`. */
    var running: bool
    /** `_imap`: the open session, if any. */
    var session: Option<Handle>
    /** `_processed_uids`. */
    var processedUids: set<string>
    /** `_check_interval`, read from the configuration once. */
    const checkInterval: int

    constructor (checkInterval: int)
      ensures !running && session.None? && processedUids == {} && this.checkInterval == checkInterval
    {
      running := false;
      session := None;
      processedUids := {};
      this.checkInterval := checkInterval;
    }

    /** `start`: a no-op when already running; refused (raising, after the
        check itself may have raised) unless the mail settings are complete. */
    method Start(cfg: map<string, Json>) returns (r: StartOutcome)
      modifies this
      ensures old(running) ==> r == AlreadyRunning
      ensures !old(running) ==> (r == Started <==> Config.IsEmailConfigured(cfg) == Ok(true))
      ensures !old(running) ==> r != AlreadyRunning
      ensures running <==> r != Refused
      ensures session == old(session) && processedUids == old(processedUids)
    {
      if running {
        return AlreadyRunning;
      }
      if Config.IsEmailConfigured(cfg) != Ok(true) {
        return Refused;
      }
      running := true;
      r := Started;
    }

    /** `_disconnect`: whatever `close`/`logout` do, the session is gone. */
    method Disconnect()
      modifies this
      ensures session.None? && running == old(running) && processedUids == old(processedUids)
    {
      session := None;
    }

    /** `stop`: a no-op unless running; then it ends stopped and disconnected. */
    method Stop()
      modifies this
      ensures !old(running) ==> running == old(running) && session == old(session)
      ensures old(running) ==> !running && session.None?
      ensures processedUids == old(processedUids)
    {
      if !running {
        return;
      }
      running := false;
      Disconnect();
    }

    /** `is_connected`. */
    method IsConnected() returns (r: bool)
      ensures r <==> session.Some?
    {
      r := session.Some?;
    }

    /** `set_processed_uids`: sets are values, so the stored set is a copy. */
    method SetProcessedUids(uids: set<string>)
      modifies this
      ensures processedUids == uids && running == old(running) && session == old(session)
    {
      processedUids := uids;
    }

    /** `get_processed_uids`: a copy of the stored set. */
    method GetProcessedUids() returns (r: set<string>)
      ensures r == processedUids
    {
      r := processedUids;
    }

    /** `_fetch_new_emails` with its loop over the hits. */
    method FetchNewEmails(reply: SearchReply, codec: Codec) returns (newEmails: seq<Email>)
      modifies this
      ensures Fetched(newEmails, processedUids) == FetchPass(old(session), reply, old(processedUids), codec)
      ensures session == old(session) && running == old(running)
    {
      newEmails := [];
      if session.None? || !Usable(session.value) || reply.SearchFailed? {
        return;
      }
      var cands := reply.candidates;
      var i := 0;
      while i < |cands|
        invariant 0 <= i <= |cands|
        invariant Fetched(newEmails, processedUids) == Dedup(cands[..i], old(processedUids), codec)
        invariant session == old(session) && running == old(running)
      {
        DedupPrefix(cands, i, old(processedUids), codec);
        newEmails := AdmitCandidate(newEmails, cands[i], codec);
        i := i + 1;
      }
      assert cands[..|cands|] == cands;
    }

    /** One iteration of the loop in `_fetch_new_emails`: a processed id is
        skipped, otherwise a successful fetch is appended and marked. */
    method AdmitCandidate(emails: seq<Email>, c: Candidate, codec: Codec) returns (r: seq<Email>)
      modifies this
      ensures Fetched(r, processedUids) == Admit(Fetched(emails, old(processedUids)), c, codec)
      ensures session == old(session) && running == old(running)
    {
      r := emails;
      if c.id !in processedUids {
        var e := FetchEmail(c.id, c.reply, c.fetchedAt, codec);
        if e.Some? {
          r := r + [e.value];
          processedUids := processedUids + {c.id};
        }
      }
    }

    /** The body of `_monitor_loop`'s `while`, once, with `_connect` as written. */
    method RunCycle(a: Attempt, codec: Codec) returns (delivered: seq<Email>, delay: nat)
      modifies this
      ensures Poll(session, processedUids, delivered, delay) == CycleAsWritten(old(session), old(processedUids), a, checkInterval, codec)
      ensures running == old(running)
    {
      if session.None? {
        var c := ConnectAsWritten(a.connect);
        session := c.session;
        if !c.ok {
          return [], ConnectRetryDelay;
        }
      }
      delivered := FetchNewEmails(a.search, codec);
      if checkInterval < 0 || a.fault == OtherError {
        Disconnect();
        delay := ErrorDelay;
      } else if a.fault == Abort {
        Disconnect();
        delay := AbortDelay;
      } else {
        delay := checkInterval;
      }
    }

    /** `_monitor_loop` while it keeps running, one attempt per iteration;
        every delivered e-mail goes to the callback, whose exceptions are
        caught one e-mail at a time. */
    method MonitorLoop(attempts: seq<Attempt>, codec: Codec) returns (delivered: seq<Email>, delays: seq<nat>)
      modifies this
      ensures var r := Run(old(session), old(processedUids), if old(running) then attempts else [], checkInterval, codec);
        session == r.session && processedUids == r.seen && delivered == r.delivered && delays == r.delays
      ensures running == old(running)
    {
      delivered, delays := [], [];
      var i := 0;
      ghost var todo := if running then attempts else [];
      while running && i < |attempts|
        invariant 0 <= i <= |attempts|
        invariant running == old(running)
        invariant !running ==> i == 0
        invariant var r := Run(old(session), old(processedUids), attempts[..i], checkInterval, codec);
          session == r.session && processedUids == r.seen && delivered == r.delivered && delays == r.delays
      {
        assert attempts[..i + 1][..i] == attempts[..i];
        var got, wait := RunCycle(attempts[i], codec);
        delivered := delivered + got;
        delays := delays + [wait];
        i := i + 1;
      }
      if running {
        assert attempts[..|attempts|] == attempts;
      } else {
        assert attempts[..0] == [];
      }
    }
  }
}
