/**
  The RFC 5322 message printer of `apps/cli/src/workspace/compose.rs`, and a
  reader of such messages.  The date header is an input.
*/
module Compose {
  import opened Wrappers
  import opened Strings
  import opened WorkspaceTypes

  // ------------------------------------------------------------- the printer

  const ATOM_SYMBOLS := " !#$%&'*+-/=?^_`{|}~"

  predicate IsAsciiAlphanumeric(c: char) {
    '0' <= c <= '9' || 'A' <= c <= 'Z' || 'a' <= c <= 'z'
  }

  predicate AtomChar(c: char) { IsAsciiAlphanumeric(c) || c in ATOM_SYMBOLS }

  predicate NotLineBreak(c: char) { c != '\r' && c != '\n' }

  function WithoutLineBreaks(s: string): string { Filter(s, NotLineBreak) }

  function EscapeQuoted(s: string): string {
    ReplaceChar(ReplaceChar(s, '\\', "\\\\"), '"', "\\\"")
  }

  predicate NeedsQuotes(sanitized: string) {
    sanitized == "" || exists i :: 0 <= i < |sanitized| && !AtomChar(sanitized[i])
  }

  function EncodeDisplayName(name: string): string {
    var sanitized := WithoutLineBreaks(name);
    if NeedsQuotes(sanitized) then "\"" + EscapeQuoted(sanitized) + "\"" else sanitized
  }

  function HeaderSafe(value: string): string {
    ReplaceChar(ReplaceChar(value, '\r', " "), '\n', " ")
  }

  function SenderName(venture: Option<Venture>): string {
    if venture.Some? then venture.value.name else "Sovereign Founder"
  }

  function RecipientName(customer: Option<Customer>): string {
    if customer.Some? then customer.value.name else "Customer"
  }

  function RecipientAddress(customer: Option<Customer>): string {
    if customer.Some? && Trim(customer.value.email) != "" then Trim(customer.value.email)
    else "recipient@example.invalid"
  }

  /** The fixed texts of a message. */
  datatype Texts = Texts(
    from: string, to: string, subject: string, date: string, messageId: string, idHost: string, host: string,
    mime: string, contentType: string, composed: string, note: string)

  const COMPOSED_NAME := "X-Sovereign-Composed: composed locally"
  const COMPOSED_REST := " by Sovereign Founder OS; not transmitted"
  const NOTE_NAME := "X-Sovereign-Note: recipient address"
  const NOTE_MIDDLE := " is a placeholder \U{2014} set the"
  const NOTE_REST := " customer's email before sending"

  const TEXTS := Texts(
    "From: ", "To: ", "Subject: ", "Date: ", "Message-ID: <", "@sovereign-founder-os.invalid>",
    "founder@example.invalid",
    "MIME-Version: 1.0", "Content-Type: text/plain; charset=utf-8",
    COMPOSED_NAME + COMPOSED_REST, NOTE_NAME + NOTE_MIDDLE + NOTE_REST)

  /** The header lines of a message, without their line ends. */
  function Headers(t: Texts, venture: Option<Venture>, customer: Option<Customer>, document: Document, date: string)
    : seq<string>
  {
    FieldHeaders(t, venture, customer, document) + [t.date + date] + FixedHeaders(t, customer, document)
  }

  function FieldHeaders(t: Texts, venture: Option<Venture>, customer: Option<Customer>, document: Document): (s: seq<string>)
    ensures |s| == 3
  {
    [ t.from + Mailbox(SenderName(venture), t.host),
      t.to + Mailbox(RecipientName(customer), HeaderSafe(RecipientAddress(customer))),
      t.subject + HeaderSafe(document.title) ]
  }

  function FixedHeaders(t: Texts, customer: Option<Customer>, document: Document): (s: seq<string>)
    ensures |s| == if EndsWith(RecipientAddress(customer), ".invalid") then 5 else 4
  {
    [ t.messageId + Decimal(document.id) + t.idHost,
      t.mime,
      t.contentType,
      t.composed ]
    + (if EndsWith(RecipientAddress(customer), ".invalid") then [t.note] else [])
  }

  function Mailbox(name: string, address: string): string {
    EncodeDisplayName(name) + " <" + address + ">"
  }

  function TrimmedLines(lines: seq<string>): (trimmed: seq<string>)
    ensures |trimmed| == |lines|
    ensures forall i | 0 <= i < |lines| :: trimmed[i] == TrimEnd(lines[i], '\r')
  {
    if lines == [] then [] else [TrimEnd(lines[0], '\r')] + TrimmedLines(lines[1..])
  }

  /** The document's lines as they are printed. */
  function BodyLines(body: string): seq<string> { TrimmedLines(Split(body, '\n')) }

  function Terminated(lines: seq<string>): string {
    if lines == [] then "" else lines[0] + "\r\n" + Terminated(lines[1..])
  }

  function MessageWith(t: Texts, venture: Option<Venture>, customer: Option<Customer>, document: Document, date: string)
    : string
  {
    Terminated(Headers(t, venture, customer, document, date) + [""] + BodyLines(document.body))
  }

  function Message(venture: Option<Venture>, customer: Option<Customer>, document: Document, date: string): string {
    MessageWith(TEXTS, venture, customer, document, date)
  }

  lemma {:induction false} TerminatedConcat(a: seq<string>, b: seq<string>)
    ensures Terminated(a + b) == Terminated(a) + Terminated(b)
  {
    if a == [] {
      assert a + b == b;
    } else {
      assert (a + b)[1..] == a[1..] + b;
      TerminatedConcat(a[1..], b);
    }
  }

  lemma TerminatedOneMore(done: seq<string>, line: string)
    ensures Terminated(done + [line]) == Terminated(done) + (line + "\r\n")
  {
    TerminatedConcat(done, [line]);
    assert Terminated([line]) == line + "\r\n";
  }

  /** `message.push_str(line)` with its CRLF; the first `n` of `lines` were already printed. */
  method PushLine(ghost lines: seq<string>, ghost n: nat, line: string, printed: string) returns (message: string)
    requires n < |lines| && line == lines[n]
    requires printed == Terminated(lines[..n])
    ensures message == Terminated(lines[..n + 1])
  {
    TerminatedOneMore(lines[..n], line);
    assert lines[..n + 1] == lines[..n] + [line];
    message := printed + (line + "\r\n");
  }

  method ComposeEmail(venture: Option<Venture>, customer: Option<Customer>, document: Document, date: string)
    returns (message: string)
    ensures message == Message(venture, customer, document, date)
  {
    message := Print(TEXTS, venture, customer, document, date);
  }

  lemma InOrder(from: string, to: string, subject: string, date: string, messageId: string,
                mime: string, contentType: string, composed: string, note: seq<string>)
    ensures [from, to, subject] + [date] + ([messageId, mime, contentType, composed] + note)
      == [from, to, subject, date, messageId, mime, contentType, composed] + note
  {
  }

  method PrintHeaders(from: string, to: string, subject: string, date: string, messageId: string,
                      mime: string, contentType: string, composed: string, placeholder: bool, note: string)
    returns (message: string)
    ensures message == Terminated(
      [from, to, subject, date, messageId, mime, contentType, composed] + (if placeholder then [note] else []))
  {
    ghost var all := [from, to, subject, date, messageId, mime, contentType, composed, note];
    message := "";
    message := PushLine(all, 0, from, message);
    message := PushLine(all, 1, to, message);
    message := PushLine(all, 2, subject, message);
    message := PushLine(all, 3, date, message);
    message := PushLine(all, 4, messageId, message);
    message := PushLine(all, 5, mime, message);
    message := PushLine(all, 6, contentType, message);
    message := PushLine(all, 7, composed, message);
    if placeholder {
      message := PushLine(all, 8, note, message);
    }
    assert all[..8] == [from, to, subject, date, messageId, mime, contentType, composed] + [];
    assert all[..9] == [from, to, subject, date, messageId, mime, contentType, composed] + [note];
  }

  /** One body line; the first `n` lines were already printed after `separated`. */
  method PushBodyLine(ghost separated: string, ghost all: seq<string>, ghost n: nat, line: string, printed: string)
    returns (message: string)
    requires n < |all| && line == all[n]
    requires printed == separated + Terminated(all[..n])
    ensures message == separated + Terminated(all[..n + 1])
  {
    TerminatedOneMore(all[..n], line);
    assert all[..n + 1] == all[..n] + [line];
    message := printed + (line + "\r\n");
  }

  method PrintBody(body: string, printed: string) returns (message: string)
    ensures message == printed + Terminated([""]) + Terminated(BodyLines(body))
  {
    message := printed + "\r\n";
    assert message == printed + Terminated([""]);
    ghost var separated := message;
    var lines := Split(body, '\n');
    ghost var all := BodyLines(body);
    for i := 0 to |lines|
      invariant message == separated + Terminated(all[..i])
    {
      message := PushBodyLine(separated, all, i, TrimEnd(lines[i], '\r'), message);
    }
    assert all[..|lines|] == all;
  }

  method Print(t: Texts, venture: Option<Venture>, customer: Option<Customer>, document: Document, date: string)
    returns (message: string)
    ensures message == MessageWith(t, venture, customer, document, date)
  {
    var address := RecipientAddress(customer);
    message := PrintHeaders(
      t.from + Mailbox(SenderName(venture), t.host),
      t.to + Mailbox(RecipientName(customer), HeaderSafe(address)),
      t.subject + HeaderSafe(document.title),
      t.date + date,
      t.messageId + Decimal(document.id) + t.idHost,
      t.mime, t.contentType, t.composed,
      EndsWith(address, ".invalid"), t.note);
    message := PrintBody(document.body, message);
    ghost var headers := Headers(t, venture, customer, document, date);
    InOrder(t.from + Mailbox(SenderName(venture), t.host),
            t.to + Mailbox(RecipientName(customer), HeaderSafe(address)),
            t.subject + HeaderSafe(document.title),
            t.date + date,
            t.messageId + Decimal(document.id) + t.idHost,
            t.mime, t.contentType, t.composed,
            if EndsWith(address, ".invalid") then [t.note] else []);
    TerminatedConcat(headers, [""]);
    TerminatedConcat(headers + [""], BodyLines(document.body));
  }

  // -------------------------------------------------------------- the reader

  /** Lines ended by CRLF (section 2.1 of RFC 5322). */
  function SplitCrlf(s: string): (lines: seq<string>)
    ensures |lines| >= 1
  {
    if |s| < 2 then [s]
    else if s[0] == '\r' && s[1] == '\n' then [""] + SplitCrlf(s[2..])
    else
      var rest := SplitCrlf(s[1..]);
      [[s[0]] + rest[0]] + rest[1..]
  }

  /** Position of the first empty line. */
  function FirstEmpty(lines: seq<string>): nat {
    if lines == [] || lines[0] == "" then 0 else 1 + FirstEmpty(lines[1..])
  }

  datatype Parsed = Parsed(headers: seq<string>, body: seq<string>)

  /** Header section and body, separated by the first empty line; the text after the last CRLF must be empty. */
  function ReadMessage(s: string): Option<Parsed> {
    var lines := SplitCrlf(s);
    var n := FirstEmpty(lines);
    if n + 1 < |lines| && lines[|lines| - 1] == "" then Some(Parsed(lines[..n], lines[n + 1..|lines| - 1]))
    else None
  }

  /** The content of a quoted string whose opening quote was read, and what follows it (section 3.2.4 of RFC 5322). */
  function ReadQuoted(s: string): Option<(string, string)> {
    if s == "" then None
    else if s[0] == '"' then Some(("", s[1..]))
    else if s[0] == '\\' && |s| >= 2 then Prepend(s[1], ReadQuoted(s[2..]))
    else if s[0] == '\\' then None
    else Prepend(s[0], ReadQuoted(s[1..]))
  }

  function Prepend(c: char, r: Option<(string, string)>): Option<(string, string)> {
    if r.Some? then Some(([c] + r.value.0, r.value.1)) else None
  }

  /** The characters before the first `<`, and the rest. */
  function ReadPhrase(s: string): Option<(string, string)> {
    if s == "" then None
    else if s[0] == '<' then Some(("", s))
    else Prepend(s[0], ReadPhrase(s[1..]))
  }

  /**
    A bare phrase: blanks at its ends are folding white space, and a run of
    them between words is one blank (section 3.2.2 of RFC 5322).
  */
  function Squeeze(s: string): (t: string)
    ensures |t| <= |s|
  {
    if s == "" then "" else if s[0] == ' ' then Squeeze(s[1..]) else [s[0]] + SqueezeAfter(s[1..])
  }

  /** The rest of a phrase after a character of a word. */
  function SqueezeAfter(s: string): (t: string)
    ensures |t| <= |s|
  {
    if s == "" then ""
    else if s[0] != ' ' then [s[0]] + SqueezeAfter(s[1..])
    else
      var rest := Squeeze(s[1..]);
      if rest == "" then "" else " " + rest
  }

  /** Display name and address of `name <address>`, with a quoted or a bare name. */
  function ReadMailbox(s: string): Option<(string, string)> {
    if s != "" && s[0] == '"' then
      var r := ReadQuoted(s[1..]);
      if r.Some? && |r.value.1| >= 3 && r.value.1[..2] == " <" && EndsWith(r.value.1, ">")
      then Some((r.value.0, r.value.1[2..|r.value.1| - 1]))
      else None
    else
      var r := ReadPhrase(s);
      if r.Some? && |r.value.1| >= 2 && EndsWith(r.value.1, ">")
      then Some((Squeeze(r.value.0), r.value.1[1..|r.value.1| - 1]))
      else None
  }

  // ------------------------------------------------- reading what was printed

  lemma {:induction false} SplitCrlfLine(line: string, rest: string)
    requires '\n' !in line
    ensures SplitCrlf(line + "\r\n" + rest) == [line] + SplitCrlf(rest)
  {
    var s := line + "\r\n" + rest;
    if line == "" {
      assert s[2..] == rest;
    } else {
      assert s[1..] == line[1..] + "\r\n" + rest;
      SplitCrlfLine(line[1..], rest);
      assert [line[0]] + line[1..] == line;
      assert s[1] == if |line| > 1 then line[1] else '\r';
    }
  }

  lemma {:induction false} SplitCrlfTerminated(lines: seq<string>)
    requires forall i | 0 <= i < |lines| :: '\n' !in lines[i]
    ensures SplitCrlf(Terminated(lines)) == lines + [""]
  {
    if lines != [] {
      SplitCrlfTerminated(lines[1..]);
      SplitCrlfLine(lines[0], Terminated(lines[1..]));
    }
  }

  lemma {:induction false} FirstEmptyAfter(headers: seq<string>, rest: seq<string>)
    requires forall i | 0 <= i < |headers| :: headers[i] != ""
    ensures FirstEmpty(headers + [""] + rest) == |headers|
  {
    var all := headers + [""] + rest;
    if headers != [] {
      assert all[1..] == headers[1..] + [""] + rest;
      FirstEmptyAfter(headers[1..], rest);
    }
  }

  lemma {:induction false} ReplaceCharRemoves(s: string, c: char, r: string, d: char)
    requires d !in r && (d == c || d !in s)
    ensures d !in ReplaceChar(s, c, r)
  {
    if s != "" {
      ReplaceCharRemoves(s[1..], c, r, d);
    }
  }

  predicate Unbroken(s: string) { forall i | 0 <= i < |s| :: NotLineBreak(s[i]) }

  predicate OneLine(s: string) { s != "" && Unbroken(s) }

  lemma HeaderSafeIsUnbroken(s: string)
    ensures Unbroken(HeaderSafe(s))
  {
    ReplaceCharRemoves(s, '\r', " ", '\r');
    ReplaceCharRemoves(ReplaceChar(s, '\r', " "), '\n', " ", '\r');
    ReplaceCharRemoves(ReplaceChar(s, '\r', " "), '\n', " ", '\n');
  }

  lemma DisplayNameIsOneLine(name: string)
    ensures OneLine(EncodeDisplayName(name))
  {
    var s := WithoutLineBreaks(name);
    ReplaceCharRemoves(s, '\\', "\\\\", '\r');
    ReplaceCharRemoves(s, '\\', "\\\\", '\n');
    ReplaceCharRemoves(ReplaceChar(s, '\\', "\\\\"), '"', "\\\"", '\r');
    ReplaceCharRemoves(ReplaceChar(s, '\\', "\\\\"), '"', "\\\"", '\n');
    assert Unbroken("\"") && Unbroken(EscapeQuoted(s));
  }

  predicate Clean(t: Texts) {
    && OneLine(t.from) && OneLine(t.to) && OneLine(t.subject) && OneLine(t.date) && OneLine(t.messageId)
    && OneLine(t.idHost) && OneLine(t.host)
    && OneLine(t.mime) && OneLine(t.contentType) && OneLine(t.composed) && OneLine(t.note)
  }

  lemma NoteIsOneLine()
    ensures OneLine(TEXTS.note)
  {
    assert OneLine(NOTE_NAME);
    assert OneLine(NOTE_MIDDLE);
    assert OneLine(NOTE_REST);
  }

  lemma ComposedIsOneLine()
    ensures OneLine(TEXTS.composed)
  {
    assert OneLine(COMPOSED_NAME);
    assert OneLine(COMPOSED_REST);
  }

  lemma FieldNamesAreOneLine()
    ensures OneLine(TEXTS.from) && OneLine(TEXTS.to) && OneLine(TEXTS.subject) && OneLine(TEXTS.date)
    ensures OneLine(TEXTS.messageId)
  {
  }

  lemma HostsAreOneLine()
    ensures OneLine(TEXTS.idHost) && OneLine(TEXTS.host)
  {
  }

  lemma ContentFieldsAreOneLine()
    ensures OneLine(TEXTS.mime) && OneLine(TEXTS.contentType)
  {
  }

  lemma UnbrokenConcat(a: string, b: string)
    requires Unbroken(a) && Unbroken(b)
    ensures Unbroken(a + b) && |a + b| == |a| + |b|
  {
  }

  lemma MailboxIsOneLine(name: string, address: string)
    requires Unbroken(address)
    ensures OneLine(Mailbox(name, address))
  {
    DisplayNameIsOneLine(name);
    UnbrokenConcat(EncodeDisplayName(name), " <");
    UnbrokenConcat(EncodeDisplayName(name) + " <", address);
    UnbrokenConcat(EncodeDisplayName(name) + " <" + address, ">");
  }

  lemma MessageIdIsOneLine(t: Texts, id: Id)
    requires Clean(t)
    ensures OneLine(t.messageId + Decimal(id) + t.idHost)
  {
    var digits := Decimal(id);
    forall i | 0 <= i < |digits| ensures NotLineBreak(digits[i]) {
      assert IsDigit(digits[i]);
    }
    UnbrokenConcat(t.messageId, digits);
    UnbrokenConcat(t.messageId + digits, t.idHost);
  }

  lemma FieldHeadersAreLines(t: Texts, venture: Option<Venture>, customer: Option<Customer>, document: Document)
    requires Clean(t)
    ensures forall h <- FieldHeaders(t, venture, customer, document) :: OneLine(h)
  {
    var address := RecipientAddress(customer);
    HeaderSafeIsUnbroken(address);
    HeaderSafeIsUnbroken(document.title);
    MailboxIsOneLine(SenderName(venture), t.host);
    MailboxIsOneLine(RecipientName(customer), HeaderSafe(address));
    UnbrokenConcat(t.from, Mailbox(SenderName(venture), t.host));
    UnbrokenConcat(t.to, Mailbox(RecipientName(customer), HeaderSafe(address)));
    UnbrokenConcat(t.subject, HeaderSafe(document.title));
  }

  lemma FixedHeadersAreLines(t: Texts, customer: Option<Customer>, document: Document)
    requires Clean(t)
    ensures forall h <- FixedHeaders(t, customer, document) :: OneLine(h)
  {
    MessageIdIsOneLine(t, document.id);
  }

  lemma HeadersAreLines(t: Texts, venture: Option<Venture>, customer: Option<Customer>, document: Document, date: string)
    requires Clean(t) && Unbroken(date)
    ensures forall h <- Headers(t, venture, customer, document, date) :: OneLine(h)
  {
    FieldHeadersAreLines(t, venture, customer, document);
    FixedHeadersAreLines(t, customer, document);
    UnbrokenConcat(t.date, date);
  }

  /**
    No field can add, remove or split a header: the reader finds exactly the
    printed headers, eight of them or nine with the placeholder note, and the
    body's own lines.
  */
  lemma MessageRoundTrip(venture: Option<Venture>, customer: Option<Customer>, document: Document, date: string)
    requires Unbroken(date)
    ensures var headers := Headers(TEXTS, venture, customer, document, date);
      && ReadMessage(Message(venture, customer, document, date)) == Some(Parsed(headers, BodyLines(document.body)))
      && |headers| == (if EndsWith(RecipientAddress(customer), ".invalid") then 9 else 8)
  {
    NoteIsOneLine();
    ComposedIsOneLine();
    FieldNamesAreOneLine();
    HostsAreOneLine();
    ContentFieldsAreOneLine();
    HeadersAreLines(TEXTS, venture, customer, document, date);
    ReadPrinted(Headers(TEXTS, venture, customer, document, date), document.body);
  }

  lemma BodyLinesAreFree(body: string)
    ensures LinesFree(BodyLines(body))
  {
    SplitPartsFree(body, '\n');
    forall i | 0 <= i < |BodyLines(body)| ensures '\n' !in BodyLines(body)[i] {
      var line := Split(body, '\n')[i];
      assert Free(line, '\n') && BodyLines(body)[i] == TrimEnd(line, '\r') <= line;
    }
  }

  /** No line holds a line feed. */
  predicate LinesFree(lines: seq<string>) { forall i | 0 <= i < |lines| :: '\n' !in lines[i] }

  lemma LinesFreeConcat(a: seq<string>, b: seq<string>)
    requires LinesFree(a) && LinesFree(b)
    ensures LinesFree(a + b)
  {
  }

  lemma OneLinesAreFree(headers: seq<string>)
    requires forall h <- headers :: OneLine(h)
    ensures LinesFree(headers)
  {
    forall i | 0 <= i < |headers| ensures '\n' !in headers[i] {
      assert headers[i] in headers;
    }
  }

  lemma PrintedLinesAreFree(headers: seq<string>, body: string)
    requires forall h <- headers :: OneLine(h)
    ensures LinesFree(headers + [""] + BodyLines(body))
  {
    OneLinesAreFree(headers);
    BodyLinesAreFree(body);
    LinesFreeConcat(headers, [""]);
    LinesFreeConcat(headers + [""], BodyLines(body));
  }

  /** Reading lines whose first empty one follows the headers. */
  lemma ReadLines(headers: seq<string>, body: seq<string>)
    requires forall i | 0 <= i < |headers| :: headers[i] != ""
    ensures var lines := headers + [""] + body + [""];
      && FirstEmpty(lines) == |headers|
      && lines[..|headers|] == headers && lines[|headers| + 1..|lines| - 1] == body
  {
    FirstEmptyAfter(headers, body + [""]);
    assert headers + [""] + body + [""] == headers + [""] + (body + [""]);
  }

  lemma ReadPrinted(headers: seq<string>, body: string)
    requires forall h <- headers :: OneLine(h)
    ensures ReadMessage(Terminated(headers + [""] + BodyLines(body))) == Some(Parsed(headers, BodyLines(body)))
  {
    PrintedLinesAreFree(headers, body);
    SplitCrlfTerminated(headers + [""] + BodyLines(body));
    assert forall i | 0 <= i < |headers| :: headers[i] in headers;
    ReadLines(headers, BodyLines(body));
  }

  /** Escaping works one character at a time. */
  lemma EscapeQuotedStep(s: string)
    requires s != ""
    ensures EscapeQuoted(s) == EscapeQuoted([s[0]]) + EscapeQuoted(s[1..])
  {
    var head := ReplaceChar([s[0]], '\\', "\\\\");
    assert s == [s[0]] + s[1..];
    ReplaceCharConcat([s[0]], s[1..], '\\', "\\\\");
    ReplaceCharConcat(head, ReplaceChar(s[1..], '\\', "\\\\"), '"', "\\\"");
  }

  lemma ReadEscapedHead(c: char, tail: string)
    ensures ReadQuoted(EscapeQuoted([c]) + tail).Some? <==> ReadQuoted(tail).Some?
    ensures ReadQuoted(tail).Some? ==>
      ReadQuoted(EscapeQuoted([c]) + tail) == Some(([c] + ReadQuoted(tail).value.0, ReadQuoted(tail).value.1))
  {
    EscapedHead(c);
    if c == '\\' || c == '"' {
      assert (EscapeQuoted([c]) + tail)[2..] == tail;
    } else {
      assert (EscapeQuoted([c]) + tail)[1..] == tail;
    }
  }

  lemma {:induction false} ReadQuotedEscaped(s: string, rest: string)
    ensures ReadQuoted(EscapeQuoted(s) + "\"" + rest) == Some((s, rest))
  {
    if s == "" {
      assert EscapeQuoted(s) + "\"" + rest == "\"" + rest;
    } else {
      var tail := EscapeQuoted(s[1..]) + "\"" + rest;
      ReadQuotedEscaped(s[1..], rest);
      EscapeQuotedStep(s);
      assert EscapeQuoted(s) + "\"" + rest == EscapeQuoted([s[0]]) + tail;
      ReadEscapedHead(s[0], tail);
      assert s == [s[0]] + s[1..];
    }
  }

  lemma EscapedHead(c: char)
    ensures EscapeQuoted([c]) == if c == '\\' || c == '"' then ['\\', c] else [c]
  {
    assert [c][1..] == "";
    assert ReplaceChar([c], '\\', "\\\\") == if c == '\\' then "\\\\" else [c];
    assert "\\\\" == ['\\', '\\'] && ['\\', '\\'][1..] == ['\\'] && ['\\'][1..] == "";
    assert ReplaceChar(['\\'], '"', "\\\"") == ['\\'];
    assert ReplaceChar([c], '"', "\\\"") == if c == '"' then "\\\"" else [c];
  }

  lemma {:induction false} ReadPhraseBefore(name: string, rest: string)
    requires '<' !in name && rest != "" && rest[0] == '<'
    ensures ReadPhrase(name + rest) == Some((name, rest))
  {
    if name == "" {
      assert name + rest == rest;
    } else {
      assert (name + rest)[1..] == name[1..] + rest;
      ReadPhraseBefore(name[1..], rest);
      assert [name[0]] + name[1..] == name;
    }
  }

  /** No blank at either end, and no two in a row. */
  predicate Tidy(s: string) { (s != "" ==> s[0] != ' ') && TidyAfter(s) }

  predicate TidyAfter(s: string) {
    && (s != "" ==> s[|s| - 1] != ' ')
    && forall i | 0 < i < |s| :: s[i - 1] != ' ' || s[i] != ' '
  }

  /** Exactly tidy phrases are read as they are written. */
  lemma {:induction false} SqueezeKeepsTidy(s: string)
    ensures Squeeze(s) == s <==> Tidy(s)
    ensures SqueezeAfter(s) == s <==> TidyAfter(s)
  {
    if s != "" {
      var rest := s[1..];
      SqueezeKeepsTidy(rest);
      assert s == [s[0]] + rest;
      TidyStep(s);
      if s[0] == ' ' {
        assert Squeeze(s) != s;
        assert SqueezeAfter(s) == s <==> rest != "" && Squeeze(rest) == rest;
      }
    }
  }

  lemma TidyStep(s: string)
    requires s != ""
    ensures TidyAfter(s) <==> if s[0] == ' ' then s[1..] != "" && Tidy(s[1..]) else TidyAfter(s[1..])
  {
    var rest := s[1..];
    assert rest != "" ==> rest[|rest| - 1] == s[|s| - 1];
    if TidyAfter(s) {
      assert forall i | 0 < i < |rest| :: rest[i - 1] == s[i] && rest[i] == s[i + 1];
    } else if s[|s| - 1] != ' ' {
      var i :| 0 < i < |s| && s[i - 1] == ' ' && s[i] == ' ';
      assert i > 1 ==> rest[i - 2] == ' ' && rest[i - 1] == ' ';
    }
  }

  lemma {:induction false} SqueezeDropsLast(s: string)
    ensures Squeeze(s + " ") == Squeeze(s) && SqueezeAfter(s + " ") == SqueezeAfter(s)
  {
    if s == "" {
      assert s + " " == " " && " "[1..] == "";
    } else {
      assert (s + " ")[1..] == s[1..] + " ";
      SqueezeDropsLast(s[1..]);
    }
  }

  /** The display name a reader sees: a quoted one as it is, a bare one as a phrase. */
  function NameRead(name: string): string {
    var sanitized := WithoutLineBreaks(name);
    if NeedsQuotes(sanitized) then sanitized else Squeeze(sanitized)
  }

  /**
    A mailbox reads back as the address and the name without its line breaks;
    of a bare name exactly if it has no blank at its ends and no two in a row.
  */
  lemma MailboxRoundTrip(name: string, address: string)
    ensures ReadMailbox(Mailbox(name, address)) == Some((NameRead(name), address))
    ensures var sanitized := WithoutLineBreaks(name);
      NameRead(name) == sanitized <==> NeedsQuotes(sanitized) || Tidy(sanitized)
  {
    var sanitized := WithoutLineBreaks(name);
    if NeedsQuotes(sanitized) {
      QuotedMailboxRoundTrip(sanitized, address);
    } else {
      assert forall i | 0 <= i < |sanitized| :: AtomChar(sanitized[i]);
      AtomIsBare(sanitized);
      BareMailboxRoundTrip(sanitized, address);
      SqueezeKeepsTidy(sanitized);
    }
  }

  lemma AtomIsBare(s: string)
    requires forall i | 0 <= i < |s| :: AtomChar(s[i])
    ensures '<' !in s && '"' !in s
  {
  }

  lemma QuotedMailboxRoundTrip(name: string, address: string)
    ensures ReadMailbox("\"" + EscapeQuoted(name) + "\"" + " <" + address + ">") == Some((name, address))
  {
    var tail := " <" + address + ">";
    var s := "\"" + EscapeQuoted(name) + "\"" + " <" + address + ">";
    assert s[1..] == EscapeQuoted(name) + "\"" + tail;
    ReadQuotedEscaped(name, tail);
    assert tail[..2] == " <" && tail[2..|tail| - 1] == address && tail[|tail| - 1..] == ">";
  }

  lemma BareMailboxRoundTrip(name: string, address: string)
    requires '<' !in name && '"' !in name && name != ""
    ensures ReadMailbox(name + " <" + address + ">") == Some((Squeeze(name), address))
  {
    var tail := "<" + address + ">";
    assert name + " <" + address + ">" == (name + " ") + tail;
    ReadPhraseBefore(name + " ", tail);
    SqueezeDropsLast(name);
    assert tail[1..|tail| - 1] == address && tail[|tail| - 1..] == ">";
  }

  const SPECIALS := "()<>[]:;@,.\"\\"

  /** The characters of a bare name: printable ASCII without the specials (section 3.2.3 of RFC 5322). */
  lemma AtomCharsArePhrase(c: char)
    ensures AtomChar(c) <==> ' ' <= c <= '~' && c !in SPECIALS
  {
  }

  lemma {:induction false} FilterConcat(a: string, b: string, keep: char -> bool)
    ensures Filter(a + b, keep) == Filter(a, keep) + Filter(b, keep)
  {
    if a == "" {
      assert a + b == b;
    } else {
      assert (a + b)[1..] == a[1..] + b;
      FilterConcat(a[1..], b, keep);
    }
  }

  /** A name loses exactly its line breaks. */
  lemma LineBreaksAreDropped(a: string, c: char, b: string)
    ensures WithoutLineBreaks("") == ""
    ensures WithoutLineBreaks(a + [c] + b)
      == WithoutLineBreaks(a) + (if c == '\r' || c == '\n' then "" else [c]) + WithoutLineBreaks(b)
  {
    FilterConcat(a + [c], b, NotLineBreak);
    FilterConcat(a, [c], NotLineBreak);
    assert [c][1..] == "";
  }

  /** A name is printed bare exactly when it is a phrase of atoms, and quoted otherwise. */
  lemma BareExactly(name: string)
    ensures var s := WithoutLineBreaks(name);
      var printed := EncodeDisplayName(name);
      if s != "" && forall c <- s :: ' ' <= c <= '~' && c !in SPECIALS then printed == s
      else |printed| >= 2 && printed[0] == '"' && printed[|printed| - 1] == '"'
  {
    var s := WithoutLineBreaks(name);
    forall c | c in s ensures AtomChar(c) <==> ' ' <= c <= '~' && c !in SPECIALS {
      AtomCharsArePhrase(c);
    }
  }

  // ------------------------------------------------------------------- dates

  lemma OneLineBetween(before: seq<string>, line: string, after: seq<string>)
    ensures Terminated(before + [line] + after) == Terminated(before) + line + ("\r\n" + Terminated(after))
  {
    TerminatedConcat(before + [line], after);
    TerminatedOneMore(before, line);
  }

  /** What stands before the date of a message. */
  function BeforeDate(t: Texts, venture: Option<Venture>, customer: Option<Customer>, document: Document): string {
    Terminated(FieldHeaders(t, venture, customer, document)) + t.date
  }

  /** What stands after it. */
  function AfterDate(t: Texts, customer: Option<Customer>, document: Document): string {
    "\r\n" + Terminated(FixedHeaders(t, customer, document) + [""] + BodyLines(document.body))
  }

  lemma DateInMessage(t: Texts, venture: Option<Venture>, customer: Option<Customer>, document: Document, date: string)
    ensures MessageWith(t, venture, customer, document, date)
      == BeforeDate(t, venture, customer, document) + date + AfterDate(t, customer, document)
  {
    var fields, fixed := FieldHeaders(t, venture, customer, document), FixedHeaders(t, customer, document);
    RegroupLines(fields, [t.date + date], fixed, [""], BodyLines(document.body));
    OneLineBetween(fields, t.date + date, fixed + [""] + BodyLines(document.body));
    Regroup(Terminated(fields), t.date, date);
  }

  lemma RegroupLines(a: seq<string>, b: seq<string>, c: seq<string>, d: seq<string>, e: seq<string>)
    ensures a + b + c + d + e == a + b + (c + d + e)
  {
  }

  lemma Regroup(a: string, b: string, c: string)
    ensures a + (b + c) == a + b + c
  {
  }

  lemma SameMiddle(before: string, after: string, a: string, b: string)
    requires before + a + after == before + b + after
    ensures a == b
  {
    assert |a| == |b|;
    assert (before + a + after)[|before|..|before| + |a|] == a;
    assert (before + b + after)[|before|..|before| + |b|] == b;
  }

  /** Recomposing over the same state gives the same message exactly on the same date header. */
  lemma SameMessageExactly(venture: Option<Venture>, customer: Option<Customer>, document: Document, a: string, b: string)
    ensures Message(venture, customer, document, a) == Message(venture, customer, document, b) <==> a == b
  {
    if Message(venture, customer, document, a) == Message(venture, customer, document, b) {
      DateInMessage(TEXTS, venture, customer, document, a);
      DateInMessage(TEXTS, venture, customer, document, b);
      SameMiddle(BeforeDate(TEXTS, venture, customer, document), AfterDate(TEXTS, customer, document), a, b);
    }
  }

  // ------------------------------------------------------------------ fields

  /** What follows a field's name; empty if the line is not that field. */
  function FieldBody(header: string, name: string): string {
    if name <= header then header[|name|..] else ""
  }

  /** A header value: every line break of the text is a blank in it. */
  predicate OnOneLine(text: string, value: string) {
    |value| == |text| && forall i | 0 <= i < |text| :: value[i] == if NotLineBreak(text[i]) then text[i] else ' '
  }

  /** The address of a message: the customer's without the blanks around it, or the placeholder when there is none. */
  ghost predicate AddressOf(customer: Option<Customer>, address: string) {
    if customer.Some? && !Blank(customer.value.email) then
      Trimmed(address) && exists left, right | Blank(left) && Blank(right) :: customer.value.email == left + address + right
    else address == "recipient@example.invalid"
  }

  /** What a reader recovers of the headers. */
  ghost predicate ReadsAs(headers: seq<string>, t: Texts, venture: Option<Venture>, customer: Option<Customer>,
                          document: Document, date: string)
  {
    && |headers| >= 8
    && ReadMailbox(FieldBody(headers[0], t.from))
       == Some((NameRead(if venture.Some? then venture.value.name else "Sovereign Founder"), t.host))
    && (exists address ::
          && AddressOf(customer, address)
          && AddressedTo(headers[1], t, if customer.Some? then customer.value.name else "Customer", address)
          && headers[8..] == if EndsWith(address, ".invalid") then [t.note] else [])
    && OnOneLine(document.title, FieldBody(headers[2], t.subject))
    && FieldBody(headers[3], t.date) == date
    && FieldBody(headers[4], t.messageId) == Decimal(document.id) + t.idHost
    && headers[5..8] == [t.mime, t.contentType, t.composed]
  }

  /** The `To` header reads back as this name and this address. */
  predicate AddressedTo(header: string, t: Texts, name: string, address: string) {
    var read := ReadMailbox(FieldBody(header, t.to));
    read.Some? && read.value.0 == NameRead(name) && OnOneLine(address, read.value.1)
  }

  lemma {:induction false} ReplacedAt(s: string, c: char, i: nat)
    requires i < |s|
    ensures |ReplaceChar(s, c, " ")| == |s| && ReplaceChar(s, c, " ")[i] == if s[i] == c then ' ' else s[i]
  {
    if |s| > 1 {
      ReplacedAt(s[1..], c, if i > 0 then i - 1 else 0);
    }
  }

  lemma HeaderSafeIsOnOneLine(s: string)
    ensures OnOneLine(s, HeaderSafe(s))
  {
    var once := ReplaceChar(s, '\r', " ");
    if s != "" {
      ReplacedAt(s, '\r', 0);
      ReplacedAt(once, '\n', 0);
    }
    forall i | 0 <= i < |s| ensures HeaderSafe(s)[i] == if NotLineBreak(s[i]) then s[i] else ' ' {
      ReplacedAt(s, '\r', i);
      ReplacedAt(once, '\n', i);
    }
  }

  lemma RecipientAddressIsIts(customer: Option<Customer>)
    ensures AddressOf(customer, RecipientAddress(customer))
  {
    if customer.Some? {
      var email := customer.value.email;
      var left, right := TrimTakesBlanks(email);
      assert Blank(left + right) && (Trim(email) == "" ==> email == left + right);
      if Blank(email) {
        TrimOfBlank(email);
      }
    }
  }

  /** A printed mailbox under its field's name reads back. */
  lemma MailboxHeader(field: string, name: string, address: string)
    ensures ReadMailbox(FieldBody(field + Mailbox(name, address), field)) == Some((NameRead(name), address))
  {
    MailboxRoundTrip(name, address);
    BodyOfField(field, Mailbox(name, address));
  }

  lemma HeadersInOrder(t: Texts, venture: Option<Venture>, customer: Option<Customer>, document: Document, date: string)
    ensures var headers, fields := Headers(t, venture, customer, document, date), FieldHeaders(t, venture, customer, document);
      && |headers| >= 8
      && headers[0] == fields[0] && headers[1] == fields[1] && headers[2] == fields[2]
      && headers[3] == t.date + date
      && headers[4] == t.messageId + Decimal(document.id) + t.idHost
      && headers[5..8] == [t.mime, t.contentType, t.composed]
      && headers[8..] == if EndsWith(RecipientAddress(customer), ".invalid") then [t.note] else []
  {
    var fields, fixed := FieldHeaders(t, venture, customer, document), FixedHeaders(t, customer, document);
    LinesInOrder(fields, t.date + date, fixed);
    var note := if EndsWith(RecipientAddress(customer), ".invalid") then [t.note] else [];
    assert fixed == [t.messageId + Decimal(document.id) + t.idHost, t.mime, t.contentType, t.composed] + note;
  }

  lemma LinesInOrder(a: seq<string>, line: string, b: seq<string>)
    requires |a| == 3 && |b| >= 4
    ensures var all := a + [line] + b;
      && all[0] == a[0] && all[1] == a[1] && all[2] == a[2] && all[3] == line && all[4] == b[0]
      && all[5..8] == b[1..4] && all[8..] == b[4..]
  {
  }

  lemma ToReadsBack(t: Texts, customer: Option<Customer>)
    ensures AddressOf(customer, RecipientAddress(customer))
    ensures AddressedTo(t.to + Mailbox(RecipientName(customer), HeaderSafe(RecipientAddress(customer))), t,
                        if customer.Some? then customer.value.name else "Customer", RecipientAddress(customer))
  {
    var address := RecipientAddress(customer);
    RecipientAddressIsIts(customer);
    HeaderSafeIsOnOneLine(address);
    MailboxHeader(t.to, RecipientName(customer), HeaderSafe(address));
  }

  lemma FieldsReadAsPrinted(t: Texts, title: string, date: string, id: Id)
    ensures OnOneLine(title, FieldBody(t.subject + HeaderSafe(title), t.subject))
    ensures FieldBody(t.date + date, t.date) == date
    ensures FieldBody(t.messageId + Decimal(id) + t.idHost, t.messageId) == Decimal(id) + t.idHost
  {
    BodyOfField(t.subject, HeaderSafe(title));
    HeaderSafeIsOnOneLine(title);
    BodyOfField(t.date, date);
    BodyOfField(t.messageId, Decimal(id) + t.idHost);
    Regroup(t.messageId, Decimal(id), t.idHost);
  }

  lemma FromReadsBack(t: Texts, venture: Option<Venture>)
    ensures ReadMailbox(FieldBody(t.from + Mailbox(SenderName(venture), t.host), t.from))
      == Some((NameRead(if venture.Some? then venture.value.name else "Sovereign Founder"), t.host))
  {
    MailboxHeader(t.from, SenderName(venture), t.host);
  }

  lemma HeadersReadBack(t: Texts, venture: Option<Venture>, customer: Option<Customer>, document: Document, date: string)
    ensures ReadsAs(Headers(t, venture, customer, document, date), t, venture, customer, document, date)
  {
    HeadersInOrder(t, venture, customer, document, date);
    FromReadsBack(t, venture);
    ToReadsBack(t, customer);
    FieldsReadAsPrinted(t, document.title, date, document.id);
  }

  lemma BodyOfField(name: string, content: string)
    ensures FieldBody(name + content, name) == content
  {
  }

  /**
    What a reader of the message recovers: both display names as
    `MailboxRoundTrip` says, the customer's own address or the placeholder with
    its note, the subject, the date, the document's id, and the document's lines
    without their trailing carriage returns.
  */
  lemma FieldsReadBack(venture: Option<Venture>, customer: Option<Customer>, document: Document, date: string)
    requires Unbroken(date)
    ensures var read := ReadMessage(Message(venture, customer, document, date));
      && read.Some?
      && ReadsAs(read.value.headers, TEXTS, venture, customer, document, date)
      && exists lines :: Joined(lines, '\n') == document.body && (forall l <- lines :: Free(l, '\n'))
                         && read.value.body == TrimmedLines(lines)
  {
    MessageRoundTrip(venture, customer, document, date);
    HeadersReadBack(TEXTS, venture, customer, document, date);
    BodyHoldsLines(document.body);
  }

  lemma BodyHoldsLines(body: string)
    ensures exists lines :: Joined(lines, '\n') == body && (forall l <- lines :: Free(l, '\n'))
                            && BodyLines(body) == TrimmedLines(lines)
  {
    SplitJoins(body, '\n');
    SplitPartsFree(body, '\n');
    assert BodyLines(body) == TrimmedLines(Split(body, '\n'));
  }
}
