/** Parsing HTTP/1.1 responses, and the printed message format the parser inverts. */
module HttpResponses {
  import opened Wrappers
  import opened Widths
  import opened TransportMetas
  import HttpRequests

  datatype HttpResponse = HttpResponse(statusCode: uint16, headers: Headers, body: seq<byte>)

  datatype InvalidResponse = MissingHeaderTerminator | MissingStatusLine | InvalidStatusLine | BodyShorterThanDeclared

  const CRLF: string := "\r\n"
  const TERMINATOR: seq<byte> := [13, 10, 13, 10]

  // ----- text helpers of the parser -----

  predicate IsWhitespace(c: char) {
    || '\t' <= c <= '\r' || c == ' ' || c == 0x85 as char || c == 0xA0 as char || c == 0x1680 as char
    || 0x2000 as char <= c <= 0x200A as char || c in [0x2028 as char, 0x2029 as char, 0x202F as char]
    || c == 0x205F as char || c == 0x3000 as char
  }

  function TrimStart(s: string): string {
    if s != [] && IsWhitespace(s[0]) then TrimStart(s[1..]) else s
  }

  function TrimEnd(s: string): string {
    if s != [] && IsWhitespace(Last(s)) then TrimEnd(DropLast(s)) else s
  }

  function Trim(s: string): string {
    TrimEnd(TrimStart(s))
  }

  /** The index of the first `c`, or the length when there is none. */
  function IndexOfChar(s: string, c: char): (i: nat)
    ensures i <= |s|
    ensures i < |s| ==> s[i] == c
    ensures forall j :: 0 <= j < i ==> s[j] != c
  {
    if s == [] || s[0] == c then 0 else 1 + IndexOfChar(s[1..], c)
  }

  lemma FirstIndex(prefix: string, c: char, rest: string)
    requires c !in prefix
    ensures IndexOfChar(prefix + [c] + rest, c) == |prefix|
  {
    var s := prefix + [c] + rest;
    assert s[|prefix|] == c;
    assert forall j :: 0 <= j < |prefix| ==> s[j] == prefix[j];
  }

  function WhitespaceIndex(s: string): (i: nat)
    ensures i <= |s|
  {
    if s == [] || IsWhitespace(s[0]) then 0 else 1 + WhitespaceIndex(s[1..])
  }

  /** Maximal runs of non-whitespace. */
  function Words(s: string): seq<string>
    decreases |s|
  {
    var text := TrimStart(s);
    TrimStartShrinks(s);
    if text == [] then []
    else
      var n := WhitespaceIndex(text);
      [text[..n]] + Words(text[n..])
  }

  lemma {:induction false} TrimStartShrinks(s: string)
    ensures |TrimStart(s)| <= |s|
    ensures TrimStart(s) != [] ==> !IsWhitespace(TrimStart(s)[0]) && WhitespaceIndex(TrimStart(s)) > 0
  {
    if s != [] && IsWhitespace(s[0]) {
      TrimStartShrinks(s[1..]);
    }
  }

  function StripCr(s: string): string {
    if s != [] && Last(s) == '\r' then DropLast(s) else s
  }

  /** Lines end in LF or CRLF; the last line needs no ending. */
  function Lines(text: string): seq<string>
    decreases |text|
  {
    if text == [] then []
    else
      var n := IndexOfChar(text, '\n');
      if n == |text| then [text] else [StripCr(text[..n])] + Lines(text[n + 1..])
  }

  function DigitValue(c: char): int {
    if '0' <= c <= '9' then (c - '0') as int else -1
  }

  predicate AllDigits(s: string) {
    s != [] && forall i :: 0 <= i < |s| ==> '0' <= s[i] <= '9'
  }

  function DecimalValue(s: string): nat
    requires forall i :: 0 <= i < |s| ==> '0' <= s[i] <= '9'
  {
    if s == [] then 0 else DecimalValue(DropLast(s)) * 10 + DigitValue(Last(s))
  }

  /** Unsigned parsing: an optional plus sign, digits only, no value above `limit`. */
  function ParseUnsigned(s: string, limit: nat): Option<nat> {
    var digits := if |s| > 1 && s[0] == '+' then s[1..] else s;
    if AllDigits(digits) && DecimalValue(digits) <= limit then Some(DecimalValue(digits)) else None
  }

  // ----- the parser -----

  predicate TerminatorAt(bytes: seq<byte>, i: nat) {
    i + 4 <= |bytes| && bytes[i] == 13 && bytes[i + 1] == 10 && bytes[i + 2] == 13 && bytes[i + 3] == 10
  }

  /** The first index at which the blank line ending the header section starts. */
  function FindTerminator(bytes: seq<byte>): (i: Option<nat>)
    ensures i.Some? ==> TerminatorAt(bytes, i.value) && forall j: nat :: j < i.value ==> !TerminatorAt(bytes, j)
    ensures i.None? ==> forall j: nat :: !TerminatorAt(bytes, j)
  {
    if TerminatorAt(bytes, 0) then Some(0)
    else if bytes == [] then None
    else
      var rest := FindTerminator(bytes[1..]);
      assert forall j: nat :: j > 0 && TerminatorAt(bytes, j) ==> TerminatorAt(bytes[1..], j - 1);
      if rest.Some? then Some(rest.value + 1) else None
  }

  function StatusCode(line: string): Option<uint16> {
    var words := Words(line);
    if |words| < 2 then None else ParseUnsigned(words[1], 0xFFFF)
  }

  function HeaderOf(line: string): Option<Header> {
    var colon := IndexOfChar(line, ':');
    if colon == |line| then None else Some(Header(Trim(line[..colon]), Trim(line[colon + 1..])))
  }

  function HeadersOf(lines: seq<string>): Headers {
    if lines == [] then []
    else
      var header := HeaderOf(lines[0]);
      (if header.Some? then [header.value] else []) + HeadersOf(lines[1..])
  }

  /** The first Content-Length that parses, if any. */
  function DeclaredLength(headers: Headers): Option<nat> {
    if headers == [] then None
    else
      var parsed := if HttpRequests.Lower(headers[0].key) == HttpRequests.Lower("content-length")
                    then ParseUnsigned(headers[0].value, UINT64_MAX) else None;
      if parsed.Some? then parsed else DeclaredLength(headers[1..])
  }

  /** `lossy` stands for the program's lossy UTF-8 decoding of the header section. */
  function ParseResponse(lossy: seq<byte> -> string, response: seq<byte>): Result<HttpResponse, InvalidResponse> {
    var end := FindTerminator(response);
    if end.None? then Err(MissingHeaderTerminator)
    else
      var lines := Lines(lossy(response[..end.value]));
      if lines == [] then Err(MissingStatusLine)
      else if StatusCode(lines[0]).None? then Err(InvalidStatusLine)
      else
        var headers, body := HeadersOf(lines[1..]), response[end.value + 4..];
        if DeclaredLength(headers).Some? && |body| < DeclaredLength(headers).value then Err(BodyShorterThanDeclared)
        else Ok(HttpResponse(StatusCode(lines[0]).value, headers, body))
  }

  // ----- the message format -----

  predicate AsciiText(s: string) {
    forall i :: 0 <= i < |s| ==> s[i] < 0x80 as char
  }

  function AsciiBytes(s: string): (bytes: seq<byte>)
    requires AsciiText(s)
    ensures |bytes| == |s| && forall i :: 0 <= i < |s| ==> bytes[i] == s[i] as int
  {
    seq(|s|, i requires 0 <= i < |s| => s[i] as int)
  }

  /** UTF-8 decoding is the identity on ASCII. */
  ghost predicate DecodesAscii(lossy: seq<byte> -> string) {
    forall s: string {:trigger AsciiText(s)} :: AsciiText(s) ==> lossy(AsciiBytes(s)) == s
  }

  datatype Message = Message(statusLine: string, headers: Headers, body: seq<byte>)

  predicate OneLine(s: string) {
    AsciiText(s) && '\r' !in s && '\n' !in s
  }

  predicate Trimmed(s: string) {
    s == [] || (!IsWhitespace(s[0]) && !IsWhitespace(Last(s)))
  }

  predicate PrintableHeader(header: Header) {
    && OneLine(header.key) && OneLine(header.value) && ':' !in header.key
    && Trimmed(header.key) && Trimmed(header.value)
  }

  predicate Printable(message: Message) {
    && OneLine(message.statusLine) && StatusCode(message.statusLine).Some?
    && forall i :: 0 <= i < |message.headers| ==> PrintableHeader(message.headers[i])
  }

  function HeaderLine(header: Header): string {
    header.key + ": " + header.value
  }

  function Texts(headers: Headers): seq<string> {
    if headers == [] then [] else [HeaderLine(headers[0])] + Texts(headers[1..])
  }

  /** The header lines, each preceded by the line ending of the one before. */
  function HeaderLines(headers: Headers): string {
    if headers == [] then "" else CRLF + HeaderLine(headers[0]) + HeaderLines(headers[1..])
  }

  function Head(message: Message): string {
    message.statusLine + HeaderLines(message.headers)
  }

  lemma {:induction false} HeaderLinesAscii(headers: Headers)
    requires forall i :: 0 <= i < |headers| ==> PrintableHeader(headers[i])
    ensures AsciiText(HeaderLines(headers))
  {
    if headers != [] {
      HeaderLinesAscii(headers[1..]);
    }
  }

  function Print(message: Message): seq<byte>
    requires Printable(message)
  {
    HeaderLinesAscii(message.headers);
    AsciiBytes(Head(message)) + TERMINATOR + message.body
  }

  // ----- the parser inverts the format -----

  /** After every CR two characters follow, the second not a CR: no blank line inside. */
  predicate NoBlankLine(s: string) {
    forall i :: 0 <= i < |s| && s[i] == '\r' ==> i + 2 < |s| && s[i + 2] != '\r'
  }

  lemma NoBlankLineAfter(line: string, rest: string)
    requires '\r' !in line && NoBlankLine(rest)
    ensures NoBlankLine(line + rest)
  {
    var s := line + rest;
    forall i | 0 <= i < |s| && s[i] == '\r'
      ensures i + 2 < |s| && s[i + 2] != '\r'
    {
      assert i >= |line| && s[i] == rest[i - |line|];
      assert s[i + 2] == rest[i - |line| + 2];
    }
  }

  lemma {:induction false} HeaderLinesNoBlank(headers: Headers)
    requires forall i :: 0 <= i < |headers| ==> PrintableHeader(headers[i])
    ensures NoBlankLine(HeaderLines(headers))
  {
    if headers != [] {
      HeaderLinesNoBlank(headers[1..]);
      var body := HeaderLine(headers[0]) + HeaderLines(headers[1..]);
      NoBlankLineAfter(HeaderLine(headers[0]), HeaderLines(headers[1..]));
      assert HeaderLines(headers) == CRLF + body;
      assert body[0] == HeaderLine(headers[0])[0] && body[0] in HeaderLine(headers[0]);
      forall i | 0 <= i < |CRLF + body| && (CRLF + body)[i] == '\r'
        ensures i + 2 < |CRLF + body| && (CRLF + body)[i + 2] != '\r'
      {
        assert i >= 2 ==> (CRLF + body)[i] == body[i - 2];
      }
    }
  }

  /** The header section ends where the format put its end, whatever the body holds. */
  lemma TerminatorFound(message: Message)
    requires Printable(message)
    ensures FindTerminator(Print(message)) == Some(|Head(message)|)
  {
    HeaderLinesAscii(message.headers);
    HeaderLinesNoBlank(message.headers);
    NoBlankLineAfter(message.statusLine, HeaderLines(message.headers));
    var head, bytes := Head(message), Print(message);
    assert TerminatorAt(bytes, |head|);
    assert forall j :: 0 <= j < |head| ==> bytes[j] == head[j] as int;
  }

  /** One ended line comes off the front of the text. */
  lemma FirstLine(line: string, rest: string)
    requires '\r' !in line && '\n' !in line
    ensures Lines(line + CRLF + rest) == [line] + Lines(rest)
  {
    var ended := line + "\r";
    var text := ended + ['\n'] + rest;
    assert line + CRLF + rest == text;
    FirstIndex(ended, '\n', rest);
    assert text[..|ended|] == ended && text[|ended| + 1..] == rest;
    assert DropLast(ended) == line;
  }

  /** A bare LF ends a line too. */
  lemma BareLine(line: string, rest: string)
    requires '\n' !in line && (line == [] || Last(line) != '\r')
    ensures Lines(line + "\n" + rest) == [line] + Lines(rest)
  {
    var text := line + ['\n'] + rest;
    FirstIndex(line, '\n', rest);
    assert text[..|line|] == line && text[|line| + 1..] == rest;
  }

  lemma HeaderLineClean(header: Header)
    requires PrintableHeader(header)
    ensures HeaderLine(header) != [] && '\r' !in HeaderLine(header) && '\n' !in HeaderLine(header)
  {
  }

  lemma OnlyLine(line: string)
    requires line != [] && '\n' !in line
    ensures Lines(line) == [line]
  {
  }

  lemma HeadStep(line: string, headers: Headers)
    requires headers != []
    ensures line + HeaderLines(headers) == line + CRLF + (HeaderLine(headers[0]) + HeaderLines(headers[1..]))
  {
  }

  lemma {:induction false} LinesOfHead(line: string, headers: Headers)
    requires line != [] && '\r' !in line && '\n' !in line
    requires forall i :: 0 <= i < |headers| ==> PrintableHeader(headers[i])
    ensures Lines(line + HeaderLines(headers)) == [line] + Texts(headers)
    decreases |headers|
  {
    if headers == [] {
      assert line + HeaderLines(headers) == line;
      OnlyLine(line);
    } else {
      HeadStep(line, headers);
      FirstLine(line, HeaderLine(headers[0]) + HeaderLines(headers[1..]));
      HeaderLineClean(headers[0]);
      LinesOfHead(HeaderLine(headers[0]), headers[1..]);
    }
  }

  /** Spaces and tabs. */
  predicate Blank(s: string) {
    forall i | 0 <= i < |s| :: s[i] == ' ' || s[i] == '\t'
  }

  lemma {:induction false} TrimStartBlank(pad: string, s: string)
    requires Blank(pad) && (s == [] || !IsWhitespace(s[0]))
    ensures TrimStart(pad + s) == s
  {
    if pad == [] {
      assert pad + s == s;
    } else {
      assert (pad + s)[1..] == pad[1..] + s;
      TrimStartBlank(pad[1..], s);
    }
  }

  lemma {:induction false} TrimEndBlank(s: string, pad: string)
    requires Blank(pad) && (s == [] || !IsWhitespace(Last(s)))
    ensures TrimEnd(s + pad) == s
  {
    if pad == [] {
      assert s + pad == s;
    } else {
      assert DropLast(s + pad) == s + DropLast(pad);
      TrimEndBlank(s, DropLast(pad));
    }
  }

  /** Spaces and tabs around a text do not matter. */
  lemma TrimPadded(left: string, s: string, right: string)
    requires Blank(left) && Trimmed(s) && Blank(right)
    ensures Trim(left + s + right) == s
  {
    if s == [] {
      var pad := left + right;
      assert left + s + right == pad + [];
      TrimStartBlank(pad, []);
    } else {
      assert left + s + right == left + (s + right) && (s + right)[0] == s[0];
      TrimStartBlank(left, s + right);
      TrimEndBlank(s, right);
    }
  }

  /** A header line is a name, a colon and a value, with any spaces and tabs around both; the first colon counts. */
  lemma HeaderOfPadded(name: string, value: string, a: string, b: string, c: string, d: string)
    requires ':' !in name && Trimmed(name) && Trimmed(value) && Blank(a) && Blank(b) && Blank(c) && Blank(d)
    ensures HeaderOf((a + name + b) + ":" + (c + value + d)) == Some(Header(name, value))
  {
    var left, right := a + name + b, c + value + d;
    FirstIndex(left, ':', right);
    var line := left + [':'] + right;
    assert line[..|left|] == left && line[|left| + 1..] == right;
    TrimPadded(a, name, b);
    TrimPadded(c, value, d);
  }

  lemma HeaderOfPrinted(header: Header)
    requires PrintableHeader(header)
    ensures HeaderOf(HeaderLine(header)) == Some(header)
  {
    var line := HeaderLine(header);
    assert line == header.key + [':'] + (" " + header.value);
    FirstIndex(header.key, ':', " " + header.value);
    assert line[..|header.key|] == header.key && line[|header.key| + 1..] == " " + header.value;
    TrimOfTrimmed(header.key);
    TrimOfTrimmed(header.value);
  }

  lemma TrimOfTrimmed(s: string)
    requires Trimmed(s)
    ensures Trim(s) == s && Trim(" " + s) == s
  {
    assert (" " + s)[1..] == s;
    assert TrimStart(" " + s) == TrimStart(s) == s;
  }

  /** A line without a colon is skipped, and header lines are read one by one. */
  lemma HeaderLinesReadOneByOne(line: string, rest: seq<string>)
    ensures HeaderOf(line).None? <==> ':' !in line
    ensures HeadersOf([line] + rest) ==
            (if ':' in line then [HeaderOf(line).value] else []) + HeadersOf(rest)
  {
    assert IndexOfChar(line, ':') == |line| <==> ':' !in line;
    assert ([line] + rest)[1..] == rest;
  }

  lemma {:induction false} HeadersOfPrinted(headers: Headers)
    requires forall i :: 0 <= i < |headers| ==> PrintableHeader(headers[i])
    ensures HeadersOf(Texts(headers)) == headers
  {
    if headers != [] {
      HeaderOfPrinted(headers[0]);
      HeadersOfPrinted(headers[1..]);
    }
  }

  /**
   * Parsing a printed message gives back its status, headers and body, for every body, and fails
   * exactly when the body is shorter than the first parseable Content-Length.
   */
  lemma ParsePrinted(lossy: seq<byte> -> string, message: Message)
    requires DecodesAscii(lossy) && Printable(message)
    ensures ParseResponse(lossy, Print(message)) ==
            var declared := DeclaredLength(message.headers);
            if declared.Some? && |message.body| < declared.value then Err(BodyShorterThanDeclared)
            else Ok(HttpResponse(StatusCode(message.statusLine).value, message.headers, message.body))
  {
    var head, bytes := Head(message), Print(message);
    TerminatorFound(message);
    HeaderLinesAscii(message.headers);
    assert AsciiText(head);
    assert bytes[..|head|] == AsciiBytes(head) && bytes[|head| + 4..] == message.body;
    assert message.statusLine != [];
    LinesOfHead(message.statusLine, message.headers);
    HeadersOfPrinted(message.headers);
    assert Lines(head)[1..] == Texts(message.headers);
  }

  // ----- standard status lines -----

  function Decimal(n: nat): (s: string)
    ensures AllDigits(s) && DecimalValue(s) == n
  {
    var digit := ['0' + (n % 10) as char];
    if n < 10 then
      assert DropLast(digit) == [];
      digit
    else
      assert DropLast(Decimal(n / 10) + digit) == Decimal(n / 10);
      Decimal(n / 10) + digit
  }

  predicate Word(s: string) {
    s != [] && forall i :: 0 <= i < |s| ==> !IsWhitespace(s[i])
  }

  lemma {:induction false} WordEnds(word: string, rest: string)
    requires forall i :: 0 <= i < |word| ==> !IsWhitespace(word[i])
    requires rest == [] || IsWhitespace(rest[0])
    ensures WhitespaceIndex(word + rest) == |word|
  {
    if word == [] {
      assert word + rest == rest;
    } else {
      assert (word + rest)[1..] == word[1..] + rest;
      WordEnds(word[1..], rest);
    }
  }

  lemma FirstWord(word: string, rest: string)
    requires Word(word) && (rest == [] || IsWhitespace(rest[0]))
    ensures Words(word + rest) == [word] + Words(rest)
  {
    WordEnds(word, rest);
    assert (word + rest)[0] == word[0];
    assert (word + rest)[..|word|] == word && (word + rest)[|word|..] == rest;
  }

  lemma SpacedWord(word: string, rest: string)
    requires Word(word) && (rest == [] || IsWhitespace(rest[0]))
    ensures Words(" " + (word + rest)) == [word] + Words(rest)
  {
    var spaced := " " + (word + rest);
    assert spaced[1..] == word + rest;
    assert TrimStart(spaced) == TrimStart(spaced[1..]);
    FirstWord(word, rest);
  }

  /** A decimal number parses exactly up to the limit. */
  lemma DecimalParses(n: nat, limit: nat)
    ensures ParseUnsigned(Decimal(n), limit) == if n <= limit then Some(n) else None
  {
    assert Decimal(n)[0] != '+';
  }

  /** A plus sign before it does not matter, and nothing but digits may follow. */
  lemma SignedDecimalParses(n: nat, limit: nat)
    ensures ParseUnsigned("+" + Decimal(n), limit) == if n <= limit then Some(n) else None
  {
    assert ("+" + Decimal(n))[1..] == Decimal(n);
  }

  lemma OnlyDigitsParse(s: string, limit: nat)
    requires ParseUnsigned(s, limit).Some?
    ensures AllDigits(s) || (s[0] == '+' && AllDigits(s[1..]))
  {
  }

  /** The `i`-th header is the first Content-Length, in any case, whose value is a number. */
  predicate DeclaresAt(headers: Headers, i: nat) {
    && i < |headers| && Declares(headers[i])
    && forall j | 0 <= j < i :: !Declares(headers[j])
  }

  predicate Declares(header: Header) {
    NamesLength(header) && ParseUnsigned(header.value, UINT64_MAX).Some?
  }

  /** The declared length is that header's value, and there is none exactly when no header declares one. */
  lemma {:induction false} DeclaredLengthFirst(headers: Headers)
    ensures forall i: nat | DeclaresAt(headers, i) ::
              DeclaredLength(headers) == ParseUnsigned(headers[i].value, UINT64_MAX)
    ensures DeclaredLength(headers).None? <==> forall i | 0 <= i < |headers| :: !Declares(headers[i])
  {
    if headers != [] {
      var rest := headers[1..];
      DeclaredLengthFirst(rest);
      HttpRequests.SameNameExactly(headers[0].key, "content-length");
      assert forall j | 1 <= j < |headers| :: headers[j] == rest[j - 1];
      forall i: nat | DeclaresAt(headers, i) && i > 0
        ensures DeclaresAt(rest, i - 1)
      {
        assert forall j | 0 <= j < i - 1 :: rest[j] == headers[j + 1];
      }
      if !Declares(headers[0]) {
        assert DeclaredLength(headers) == DeclaredLength(rest);
      }
    }
  }

  predicate NamesLength(header: Header) {
    var name := "content-length";
    |header.key| == |name| && forall i | 0 <= i < |name| :: HttpRequests.SameLetter(header.key[i], name[i])
  }

  /** Why a response is refused, exactly: no blank line, no status line before it, no status code in that, or a short body. */
  lemma ParseFailsExactly(lossy: seq<byte> -> string, response: seq<byte>)
    ensures var answer := ParseResponse(lossy, response);
            && (answer == Err(MissingHeaderTerminator) <==> forall i: nat :: !TerminatorAt(response, i))
            && (forall end: nat :: TerminatorAt(response, end) && (forall i: nat | i < end :: !TerminatorAt(response, i)) ==>
                  var lines := Lines(lossy(response[..end]));
                  var body := response[end + 4..];
                  && (answer == Err(MissingStatusLine) <==> lossy(response[..end]) == "")
                  && (answer == Err(InvalidStatusLine) <==> lines != [] && StatusCode(lines[0]).None?)
                  && (answer == Err(BodyShorterThanDeclared)
                      <==> && lines != [] && StatusCode(lines[0]).Some?
                           && DeclaredLength(HeadersOf(lines[1..])).Some?
                           && |body| < DeclaredLength(HeadersOf(lines[1..])).value)
                  && (answer.Ok? ==> answer == Ok(HttpResponse(StatusCode(lines[0]).value, HeadersOf(lines[1..]), body))))
  {
    forall end: nat | TerminatorAt(response, end) && (forall i: nat | i < end :: !TerminatorAt(response, i))
      ensures FindTerminator(response) == Some(end)
    {
      var found := FindTerminator(response);
      assert found.Some? && !(found.value < end) && !(end < found.value);
    }
  }

  lemma StatusLineJoined(version: string, word: string, reason: string)
    ensures version + " " + word + " " + reason == version + (" " + (word + (" " + reason)))
  {
  }

  lemma StatusLineWords(version: string, word: string, tail: string)
    requires Word(version) && Word(word) && tail != [] && IsWhitespace(tail[0])
    ensures Words(version + (" " + (word + tail))) == [version] + ([word] + Words(tail))
  {
    FirstWord(version, " " + (word + tail));
    SpacedWord(word, tail);
  }

  /** A status line of the standard form carries its code, whatever the reason phrase. */
  lemma StatusLineCode(version: string, code: uint16, reason: string)
    requires Word(version)
    ensures StatusCode(version + " " + Decimal(code) + " " + reason) == Some(code)
  {
    var text := Decimal(code);
    DecimalParses(code, 0xFFFF);
    StatusLineJoined(version, text, reason);
    SecondWordCounts(version, text, " " + reason);
  }

  lemma SecondWordCounts(version: string, word: string, tail: string)
    requires Word(version) && Word(word) && tail != [] && IsWhitespace(tail[0])
    ensures StatusCode(version + (" " + (word + tail))) == ParseUnsigned(word, 0xFFFF)
  {
    StatusLineWords(version, word, tail);
  }
}
