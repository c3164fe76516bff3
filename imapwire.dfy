/** What the two test IMAP servers put on the wire: the RFC 822 text built
    from a fixture, and the reply lines, one of which carries that text as
    an IMAP literal (section 4.3 of RFC 3501: `{n}` followed by CRLF and
    exactly n octets). */
module ImapWire {
  import opened Base
  import opened PyText
  import Utf8

  /** One fixture message of a test server. */
  datatype Fixture = Fixture(uid: string, sender: string, recipient: string, subject: string,
                             date: string, body: string)

  /** The header lines `_build_rfc822` / `build_rfc822` write, in order. */
  function HeaderLines(f: Fixture): seq<string> {
    ["From: " + f.sender, "To: " + f.recipient, "Subject: " + f.subject, "Date: " + f.date,
     "Content-Type: text/plain; charset=utf-8"]
  }

  /** Each line followed by `\n`. */
  function Terminated(lines: seq<string>): string {
    if lines == [] then "" else lines[0] + "\n" + Terminated(lines[1..])
  }

  /** `_build_rfc822` / `build_rfc822`: the five header lines, a blank line
      and the body, every line ended by a bare `\n`. */
  function BuildRfc822(f: Fixture): string {
    Terminated(HeaderLines(f)) + "\n" + f.body
  }

  /** The index of the first `c` in `s`. */
  function IndexOf(s: string, c: char): (r: Option<nat>)
    ensures r.None? <==> c !in s
    ensures r.Some? ==> r.value < |s| && s[r.value] == c && c !in s[..r.value]
  {
    if s == [] then None
    else if s[0] == c then Some(0)
    else match IndexOf(s[1..], c)
      case None => None
      case Some(i) =>
        assert s[..i + 1] == [s[0]] + s[1..][..i];
        Some(i + 1)
  }

  /** A reader of the message: the lines up to the first empty one, and the
      text after it; `None` when no empty line ends the header. */
  function ReadHeaders(s: string): Option<(seq<string>, string)>
    decreases |s|
  {
    match IndexOf(s, '\n')
    case None => None
    case Some(i) =>
      if i == 0 then Some(([], s[1..]))
      else match ReadHeaders(s[i + 1..])
        case None => None
        case Some(rest) => Some(([s[..i]] + rest.0, rest.1))
  }

  /** A line that is neither empty nor holds a line break. */
  predicate PlainLine(line: string) {
    line != [] && '\n' !in line
  }

  /** The first `c` is the one at `i` when none comes before it. */
  lemma IndexOfIsFirst(s: string, c: char, i: nat)
    requires i < |s| && s[i] == c && c !in s[..i]
    ensures IndexOf(s, c) == Some(i)
  {
  }

  lemma ReadOneLine(line: string, t: string)
    requires PlainLine(line)
    ensures ReadHeaders(line + "\n" + t) ==
      match ReadHeaders(t)
      case None => None
      case Some(rest) => Some(([line] + rest.0, rest.1))
  {
    var s := line + "\n" + t;
    assert s[..|line|] == line;
    assert s[|line|] == '\n';
    assert s[|line| + 1..] == t;
    IndexOfIsFirst(s, '\n', |line|);
  }

  /** Reading back a header block of plain lines gives those lines and the body. */
  lemma {:induction false} ReadTerminated(lines: seq<string>, body: string)
    requires forall k :: 0 <= k < |lines| ==> PlainLine(lines[k])
    ensures ReadHeaders(Terminated(lines) + "\n" + body) == Some((lines, body))
  {
    if lines == [] {
      assert Terminated(lines) + "\n" + body == "\n" + body;
      assert ("\n" + body)[1..] == body;
    } else {
      ReadTerminated(lines[1..], body);
      ReadConsLine(lines, body);
    }
  }

  /** One more plain line in front of a header block that reads back. */
  lemma ReadConsLine(lines: seq<string>, body: string)
    requires lines != [] && PlainLine(lines[0])
    requires ReadHeaders(Terminated(lines[1..]) + "\n" + body) == Some((lines[1..], body))
    ensures ReadHeaders(Terminated(lines) + "\n" + body) == Some((lines, body))
  {
    var tail := Terminated(lines[1..]) + "\n" + body;
    assert Terminated(lines) + "\n" + body == lines[0] + "\n" + tail;
    ReadOneLine(lines[0], tail);
    assert [lines[0]] + lines[1..] == lines;
  }

  /** Round trip: when no field holds a line break, reading the built
      message back yields exactly the five header lines and the body, so a
      body can never be taken for a header. */
  lemma Rfc822RoundTrip(f: Fixture)
    requires '\n' !in f.sender && '\n' !in f.recipient && '\n' !in f.subject && '\n' !in f.date
    ensures ReadHeaders(BuildRfc822(f)) == Some((HeaderLines(f), f.body))
  {
    var h := HeaderLines(f);
    forall k | 0 <= k < |h| ensures PlainLine(h[k]) {
      NoBreakAppend(h[k], k, f);
    }
    ReadTerminated(h, f.body);
  }

  lemma NoBreakAppend(line: string, k: nat, f: Fixture)
    requires '\n' !in f.sender && '\n' !in f.recipient && '\n' !in f.subject && '\n' !in f.date
    requires k < 5 && line == HeaderLines(f)[k]
    ensures PlainLine(line)
  {
    var fields := [f.sender, f.recipient, f.subject, f.date, ""];
    var labels := ["From: ", "To: ", "Subject: ", "Date: ", "Content-Type: text/plain; charset=utf-8"];
    assert line == labels[k] + fields[k];
    assert '\n' !in labels[k];
    assert '\n' !in fields[k];
  }

  lemma {:induction false} TerminatedHasNoCr(lines: seq<string>)
    requires forall k :: 0 <= k < |lines| ==> '\r' !in lines[k]
    ensures '\r' !in Terminated(lines)
  {
    if lines != [] {
      TerminatedHasNoCr(lines[1..]);
    }
  }

  /** Lines are ended by a bare LF, never CRLF: a message whose fields hold
      no CR holds no CR at all. */
  lemma Rfc822UsesBareLf(f: Fixture)
    requires '\r' !in f.sender && '\r' !in f.recipient && '\r' !in f.subject && '\r' !in f.date
    requires '\r' !in f.body
    ensures '\r' !in BuildRfc822(f)
  {
    var h := HeaderLines(f);
    forall k | 0 <= k < |h| ensures '\r' !in h[k] {
      var fields := [f.sender, f.recipient, f.subject, f.date, ""];
      var labels := ["From: ", "To: ", "Subject: ", "Date: ", "Content-Type: text/plain; charset=utf-8"];
      assert h[k] == labels[k] + fields[k];
      assert '\r' !in labels[k];
      assert '\r' !in fields[k];
    }
    TerminatedHasNoCr(h);
  }

  /** The sender's code points sit right after `From: ` at the start of the message. */
  lemma SenderPosition(f: Fixture, j: nat)
    requires j < |f.sender|
    ensures 6 + j < |BuildRfc822(f)| && BuildRfc822(f)[6 + j] == f.sender[j]
  {
    var h := HeaderLines(f);
    assert Terminated(h) == h[0] + "\n" + Terminated(h[1..]);
    assert BuildRfc822(f) == h[0] + ("\n" + Terminated(h[1..]) + "\n" + f.body);
    assert h[0][6 + j] == f.sender[j];
  }

  /** The mailbox both servers expose: `" ".join(str(i + 1) for i in range(n))`. */
  function SearchIds(n: nat): string {
    if n == 0 then "" else if n == 1 then "1" else SearchIds(n - 1) + " " + NatToString(n)
  }

  /** The untagged SEARCH line lists every message number from 1 to n in order. */
  lemma SearchIdsOfThree()
    ensures SearchIds(3) == "1 2 3"
  {
    assert NatToString(2) == "2";
    assert NatToString(3) == "3";
  }

  /** One reply the machines send: a text line, sent with CRLF appended, or
      the untagged FETCH response carrying message `message` for the
      sequence token `token`. */
  datatype Reply = Text(line: string) | Literal(token: string, message: string)

  /** The bytes of a text line. */
  function RenderText(line: string): seq<bv8> {
    Utf8.Encode(line + "\r\n")
  }

  /** The FETCH response around a literal announced with `count`. */
  function FetchResponse(token: string, count: nat, message: string): string {
    "* " + token + " FETCH (RFC822 {" + NatToString(count) + "}\r\n" + message + ")\r\n"
  }

  /** The length both servers announce: `len(rfc822)`, a count of code points. */
  function AnnouncedAsWritten(message: string): nat {
    |message|
  }

  /** The length section 4.3 of RFC 3501 asks for: the octets that follow. */
  function Announced(message: string): nat {
    Utf8.ByteLength(message)
  }

  /** The bytes of a reply as both servers send them. */
  function RenderAsWritten(r: Reply): seq<bv8> {
    match r
    case Text(line) => RenderText(line)
    case Literal(token, message) => Utf8.Encode(FetchResponse(token, AnnouncedAsWritten(message), message))
  }

  /** The bytes of a reply with the literal counted in octets. */
  function Render(r: Reply): seq<bv8> {
    match r
    case Text(line) => RenderText(line)
    case Literal(token, message) => Utf8.Encode(FetchResponse(token, Announced(message), message))
  }

  /** The literal announced by `Render` is exact: the reply is the header
      ending in `{n}` and CRLF, then exactly n bytes, which are the
      message's, then `)` and CRLF, and the digits read back as n. */
  lemma RenderedLiteralIsExact(token: string, message: string)
    ensures var n := Announced(message);
      var head := "* " + token + " FETCH (RFC822 {" + NatToString(n) + "}\r\n";
      && Render(Literal(token, message)) == Utf8.Encode(head) + Utf8.Encode(message) + Utf8.Encode(")\r\n")
      && |Utf8.Encode(message)| == n
      && ParseInt(NatToString(n)) == Some(n)
  {
    var n := Announced(message);
    var head := "* " + token + " FETCH (RFC822 {" + NatToString(n) + "}\r\n";
    assert FetchResponse(token, n, message) == head + message + ")\r\n";
    Utf8.EncodeAppend(head + message, ")\r\n");
    Utf8.EncodeAppend(head, message);
    Utf8.EncodeLength(message);
    NatToStringRoundTrip(n);
  }

  /** As written, a message with a code point outside ASCII is announced
      shorter than the bytes that follow, so a reader taking the count at
      its word stops inside the message. */
  lemma AsWrittenUndercounts(message: string, k: nat)
    requires k < |message| && message[k] as int >= 0x80
    ensures AnnouncedAsWritten(message) < |Utf8.Encode(message)|
  {
    Utf8.ByteLengthAtLeast(message, k);
    Utf8.EncodeLength(message);
  }

  /** A fixture whose sender holds a non-ASCII code point is announced
      shorter than its bytes, while the octet count matches them. */
  lemma NonAsciiSenderIsUndercounted(f: Fixture, j: nat)
    requires j < |f.sender| && f.sender[j] as int >= 0x80
    ensures AnnouncedAsWritten(BuildRfc822(f)) < |Utf8.Encode(BuildRfc822(f))|
    ensures Announced(BuildRfc822(f)) == |Utf8.Encode(BuildRfc822(f))|
  {
    SenderPosition(f, j);
    AsWrittenUndercounts(BuildRfc822(f), 6 + j);
    Utf8.EncodeLength(BuildRfc822(f));
  }

  /** Counting code points and counting octets agree exactly on ASCII text. */
  lemma AsciiCountsAgree(message: string)
    requires forall k :: 0 <= k < |message| ==> message[k] as int < 0x80
    ensures AnnouncedAsWritten(message) == Announced(message)
    ensures RenderAsWritten(Literal("1", message)) == Render(Literal("1", message))
  {
    AsciiLength(message);
  }

  lemma {:induction false} AsciiLength(s: string)
    requires forall k :: 0 <= k < |s| ==> s[k] as int < 0x80
    ensures Utf8.ByteLength(s) == |s|
  {
    if s != [] {
      AsciiLength(s[..|s| - 1]);
    }
  }
}
