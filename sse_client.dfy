/**
 * `SSEClient`: opens one event-stream request and, when its completion
 * handler receives the whole response, turns it into a status message.
 *
 * The handler checks, in this order, for a transport error, for a response
 * that is not HTTP or not 2xx, and for a body that is missing or not UTF-8;
 * otherwise it cuts the body into lines and keeps the value of the last
 * `data:` line, a simplified reading of the `data` field of section 9.2.6 of
 * the WHATWG HTML Living Standard (the value is trimmed on both sides and the
 * body is read once, whole).
 */
module Sse {
  import opened Wrappers
  import opened Bytes
  import opened Decimal
  import opened Http

  const InitialMessage: string := "No SSE message yet."
  const DataPrefix: string := "data:"
  const NoDataMessage: string := "No data or invalid encoding."

  // ----- splitting the body into lines -----

  /** A piece of text in which no line feed is a Character of its own: every
      LF comes right after a CR, forming the single Character CR LF. */
  predicate NoLoneLineFeed(t: string)
  {
    forall k :: 0 <= k < |t| && t[k] == '\n' ==> k > 0 && t[k - 1] == '\r'
  }

  /** `pieces` are cut at Swift Characters "\n": no piece holds a lone line
      feed, and no piece but the last ends in CR (a CR there and the cutting
      LF would have been the one Character CR LF). */
  predicate CutAtLineFeeds(pieces: seq<string>)
  {
    && (forall i :: 0 <= i < |pieces| ==> NoLoneLineFeed(pieces[i]))
    && (forall i :: 0 <= i < |pieces| - 1 ==> pieces[i] == [] || pieces[i][|pieces[i]| - 1] != '\r')
  }

  /** The pieces glued back together with "\n" between them. */
  function Join(pieces: seq<string>): string
    requires |pieces| >= 1
  {
    if |pieces| == 1 then pieces[0] else pieces[0] + "\n" + Join(pieces[1..])
  }

  function PrependFirst(p: string, pieces: seq<string>): (r: seq<string>)
    requires |pieces| >= 1
    ensures |r| == |pieces| && r[0] == p + pieces[0] && r[1..] == pieces[1..]
  {
    [p + pieces[0]] + pieces[1..]
  }

  /** `s.split(separator: "\n", omittingEmptySubsequences: false)`. Swift
      compares Characters (extended grapheme clusters), so the pair CR LF is
      one Character that is not "\n" and does not cut. */
  function Segments(s: string): (r: seq<string>)
    ensures |r| >= 1
    ensures r[0] == [] <==> s == [] || s[0] == '\n'
    decreases |s|
  {
    if s == [] then [[]]
    else if s[0] == '\n' then [[]] + Segments(s[1..])
    else if s[0] == '\r' && |s| >= 2 && s[1] == '\n' then PrependFirst("\r\n", Segments(s[2..]))
    else PrependFirst([s[0]], Segments(s[1..]))
  }

  /** The pieces that are not empty, in order. */
  function NonEmpty(pieces: seq<string>): (r: seq<string>)
    ensures forall i :: 0 <= i < |r| ==> r[i] != []
    ensures |r| <= |pieces|
  {
    if pieces == [] then []
    else if pieces[0] == [] then NonEmpty(pieces[1..])
    else [pieces[0]] + NonEmpty(pieces[1..])
  }

  /** `message.split(separator: "\n")`: the non-empty segments. */
  function Lines(message: string): seq<string>
  {
    NonEmpty(Segments(message))
  }

  /** A non-empty piece is kept exactly as often as it occurs, and an empty
      one not at all. */
  lemma {:induction false} NonEmptyKeepsPieces(pieces: seq<string>)
    ensures forall p :: p != [] ==> multiset(NonEmpty(pieces))[p] == multiset(pieces)[p]
    ensures multiset(NonEmpty(pieces))[[]] == 0
  {
    if pieces != [] {
      NonEmptyKeepsPieces(pieces[1..]);
      assert pieces == [pieces[0]] + pieces[1..];
    }
  }

  /** The filter keeps the order of the pieces: it acts on each part of a
      concatenation separately ... */
  lemma {:induction false} NonEmptyAppend(a: seq<string>, b: seq<string>)
    ensures NonEmpty(a + b) == NonEmpty(a) + NonEmpty(b)
  {
    if a != [] {
      assert (a + b)[1..] == a[1..] + b;
      NonEmptyAppend(a[1..], b);
    } else {
      assert a + b == b;
    }
  }

  /** ... and keeps a non-empty piece as it is. */
  lemma NonEmptyOne(p: string)
    requires p != []
    ensures NonEmpty([p]) == [p]
  {
    assert [p][1..] == [];
  }

  lemma ConcatAssoc<T>(w: seq<T>, x: seq<T>, y: seq<T>, z: seq<T>)
    ensures (w + x) + y + z == w + (x + y + z)
  {
  }

  lemma JoinPrependFirst(p: string, pieces: seq<string>)
    requires |pieces| >= 1
    ensures Join(PrependFirst(p, pieces)) == p + Join(pieces)
  {
    var r := PrependFirst(p, pieces);
    if |pieces| > 1 {
      var a, j := pieces[0], Join(pieces[1..]);
      assert Join(r) == (p + a) + "\n" + j;
      assert Join(pieces) == a + "\n" + j;
      ConcatAssoc(p, a, "\n", j);
    }
  }

  lemma JoinAfterLineFeed(t: string)
    requires Join(Segments(t)) == t
    ensures Join(Segments("\n" + t)) == "\n" + t
  {
    var s := "\n" + t;
    assert s[1..] == t;
    assert Segments(s) == [[]] + Segments(t);
    assert (([[]] + Segments(t)))[1..] == Segments(t);
  }

  lemma JoinAfterCRLF(t: string)
    requires Join(Segments(t)) == t
    ensures Join(Segments("\r\n" + t)) == "\r\n" + t
  {
    var s := "\r\n" + t;
    assert s[0] == '\r' && s[1] == '\n' && s[2..] == t;
    assert Segments(s) == PrependFirst("\r\n", Segments(t));
    JoinPrependFirst("\r\n", Segments(t));
  }

  lemma JoinAfterOther(c: char, t: string)
    requires c != '\n' && !(c == '\r' && t != [] && t[0] == '\n')
    requires Join(Segments(t)) == t
    ensures Join(Segments([c] + t)) == [c] + t
  {
    var s := [c] + t;
    assert s[0] == c && s[1..] == t;
    assert Segments(s) == PrependFirst([c], Segments(t));
    JoinPrependFirst([c], Segments(t));
  }

  /** Gluing the segments back with line feeds gives the text again. */
  lemma {:induction false} JoinSegments(s: string)
    ensures Join(Segments(s)) == s
    decreases |s|
  {
    if s != [] {
      if s[0] == '\n' {
        JoinSegments(s[1..]);
        JoinAfterLineFeed(s[1..]);
        assert "\n" + s[1..] == s;
      } else if s[0] == '\r' && |s| >= 2 && s[1] == '\n' {
        JoinSegments(s[2..]);
        JoinAfterCRLF(s[2..]);
        assert "\r\n" + s[2..] == s;
      } else {
        JoinSegments(s[1..]);
        JoinAfterOther(s[0], s[1..]);
        assert [s[0]] + s[1..] == s;
      }
    }
  }

  lemma EmptyFirstKeepsCut(rest: seq<string>)
    requires CutAtLineFeeds(rest)
    ensures CutAtLineFeeds([[]] + rest)
  {
    var r := [[]] + rest;
    forall i | 1 <= i < |r| ensures r[i] == rest[i - 1] {
    }
  }

  lemma PrependKeepsCut(p: string, rest: seq<string>)
    requires |rest| >= 1 && CutAtLineFeeds(rest)
    requires p == "\r\n" || (|p| == 1 && p[0] != '\n')
    requires p == "\r" && |rest| > 1 ==> rest[0] != []
    ensures CutAtLineFeeds(PrependFirst(p, rest))
  {
    var r := PrependFirst(p, rest);
    var first := p + rest[0];
    assert r[0] == first;
    forall k | 0 <= k < |first| && first[k] == '\n' ensures k > 0 && first[k - 1] == '\r' {
      if k >= |p| {
        assert first[k] == rest[0][k - |p|];
        assert first[k - 1] == rest[0][k - |p| - 1];
      }
    }
    if |r| > 1 && rest[0] != [] {
      assert first[|first| - 1] == rest[0][|rest[0]| - 1];
    }
    forall i | 1 <= i < |r| ensures r[i] == rest[i] {
    }
  }

  /** The segments are cut exactly at the Characters "\n". */
  lemma {:induction false} SegmentsCutAtLineFeeds(s: string)
    ensures CutAtLineFeeds(Segments(s))
    decreases |s|
  {
    if s != [] {
      if s[0] == '\n' {
        SegmentsCutAtLineFeeds(s[1..]);
        EmptyFirstKeepsCut(Segments(s[1..]));
      } else {
        var p := if s[0] == '\r' && |s| >= 2 && s[1] == '\n' then "\r\n" else [s[0]];
        SegmentsCutAtLineFeeds(s[|p|..]);
        PrependKeepsCut(p, Segments(s[|p|..]));
      }
    }
  }

  /** Text without any line feed is one line, or none when it is empty. */
  lemma {:induction false} SegmentsWithoutLineFeed(s: string)
    requires forall k :: 0 <= k < |s| ==> s[k] != '\n'
    ensures Segments(s) == [s]
    decreases |s|
  {
    if s != [] {
      SegmentsWithoutLineFeed(s[1..]);
      assert [s[0]] + s[1..] == s;
    }
  }

  // ----- trimming -----

  /** `CharacterSet.whitespacesAndNewlines`: the separators of general
      category Z, the controls U+0009 to U+000D and U+0085. */
  predicate IsWhitespaceOrNewline(c: char)
  {
    || c == ' ' || ('\t' <= c <= '\r') || c == '\U{0085}' || c == '\U{00A0}' || c == '\U{1680}'
    || ('\U{2000}' <= c <= '\U{200A}') || c == '\U{2028}' || c == '\U{2029}' || c == '\U{202F}'
    || c == '\U{205F}' || c == '\U{3000}'
  }

  predicate WhitespaceBetween(s: string, lo: int, hi: int)
    requires 0 <= lo <= hi <= |s|
  {
    forall k :: lo <= k < hi ==> IsWhitespaceOrNewline(s[k])
  }

  /** The end of the whitespace that begins at `lo`. */
  function SkipLeading(s: string, lo: nat): (i: nat)
    requires lo <= |s|
    ensures lo <= i <= |s| && WhitespaceBetween(s, lo, i)
    ensures i < |s| ==> !IsWhitespaceOrNewline(s[i])
    decreases |s| - lo
  {
    if lo < |s| && IsWhitespaceOrNewline(s[lo]) then SkipLeading(s, lo + 1) else lo
  }

  /** The start of the whitespace that ends at `hi`, not going below `lo`. */
  function SkipTrailing(s: string, lo: nat, hi: nat): (j: nat)
    requires lo <= hi <= |s|
    ensures lo <= j <= hi && WhitespaceBetween(s, j, hi)
    ensures j > lo ==> !IsWhitespaceOrNewline(s[j - 1])
    decreases hi
  {
    if hi > lo && IsWhitespaceOrNewline(s[hi - 1]) then SkipTrailing(s, lo, hi - 1) else hi
  }

  /** `r` is `s[i..j]` with only whitespace cut off on both sides, and begins
      and ends with a character that is not whitespace, unless it is empty. */
  predicate TrimmedAt(s: string, r: string, i: nat, j: nat)
  {
    && i <= j <= |s| && r == s[i..j]
    && WhitespaceBetween(s, 0, i) && WhitespaceBetween(s, j, |s|)
    && (r == [] || (!IsWhitespaceOrNewline(r[0]) && !IsWhitespaceOrNewline(r[|r| - 1])))
  }

  /** `s.trimmingCharacters(in: .whitespacesAndNewlines)`: whitespace and
      newlines cut off at both ends, and nothing else. */
  function Trim(s: string): (r: string)
    ensures TrimmedAt(s, r, SkipLeading(s, 0), SkipTrailing(s, SkipLeading(s, 0), |s|))
  {
    var i := SkipLeading(s, 0);
    s[i..SkipTrailing(s, i, |s|)]
  }

  /** Trimming twice cuts nothing more. */
  lemma TrimIdempotent(s: string)
    ensures Trim(Trim(s)) == Trim(s)
  {
    var r := Trim(s);
    assert SkipLeading(r, 0) == 0 by {
      if r != [] { assert !IsWhitespaceOrNewline(r[0]); }
    }
    assert SkipTrailing(r, 0, |r|) == |r| by {
      if r != [] { assert !IsWhitespaceOrNewline(r[|r| - 1]); }
    }
    assert r[0..|r|] == r;
  }

  // ----- data lines -----

  /** `line.hasPrefix("data:")`. */
  predicate IsDataLine(line: string)
  {
    |line| >= |DataPrefix| && line[..|DataPrefix|] == DataPrefix
  }

  /** The value of a data line: what follows `data:`, trimmed. */
  function DataValue(line: string): string
    requires IsDataLine(line)
  {
    Trim(line[|DataPrefix|..])
  }

  /** The message after `lines` have been read in order, starting from
      `current`: each data line overwrites it, other lines leave it alone. */
  function LastData(lines: seq<string>, current: string): string
    decreases |lines|
  {
    if lines == [] then current
    else
      var last := lines[|lines| - 1];
      if IsDataLine(last) then DataValue(last) else LastData(lines[..|lines| - 1], current)
  }

  /** The message is the value of the last data line ... */
  lemma {:induction false} LastDataIsLastDataLine(lines: seq<string>, current: string, i: nat)
    requires i < |lines| && IsDataLine(lines[i])
    requires forall j :: i < j < |lines| ==> !IsDataLine(lines[j])
    ensures LastData(lines, current) == DataValue(lines[i])
    decreases |lines|
  {
    if i < |lines| - 1 {
      var init := lines[..|lines| - 1];
      assert forall j :: i < j < |init| ==> init[j] == lines[j];
      LastDataIsLastDataLine(init, current, i);
    }
  }

  /** ... and without any data line (only `event:` lines, say) it is the
      message from before. */
  lemma {:induction false} LastDataWithoutDataLines(lines: seq<string>, current: string)
    requires forall j :: 0 <= j < |lines| ==> !IsDataLine(lines[j])
    ensures LastData(lines, current) == current
    decreases |lines|
  {
    if lines != [] {
      var init := lines[..|lines| - 1];
      assert forall j :: 0 <= j < |init| ==> init[j] == lines[j];
      LastDataWithoutDataLines(init, current);
    }
  }

  // ----- the completion handler -----

  /** The status code the error message reports: -1 when the response is not
      an `HTTPURLResponse`. */
  function ReportedStatus(response: ResponseKind): (code: int)
    ensures response.Http? ==> code == response.statusCode
    ensures !response.Http? ==> code == -1
  {
    if response.Http? then response.statusCode else -1
  }

  function ServerErrorMessage(code: int): string
  {
    "Server Error: HTTP Status Code " + IntToString(code)
  }

  /** What `latestMessage` holds after the completion handler has run on
      (`data`, `response`, `error`), starting from `current`. */
  function CompletionMessage(current: string, data: Option<seq<byte>>, response: ResponseKind,
                             error: Option<string>): string
  {
    if error.Some? then "Error: " + error.value
    else if !(response.Http? && IsSuccessStatus(response.statusCode)) then ServerErrorMessage(ReportedStatus(response))
    else if data.None? || DecodeUtf8(data.value).None? then NoDataMessage
    else LastData(Lines(DecodeUtf8(data.value).value), current)
  }

  /** A transport error wins over everything the response holds, and parsing
      is skipped. */
  lemma ErrorMessage(current: string, data: Option<seq<byte>>, response: ResponseKind, description: string)
    ensures CompletionMessage(current, data, response, Some(description)) == "Error: " + description
  {
  }

  /** A response that is not HTTP, or not 2xx, gives the server error, whose
      text ends in the status code (-1 when not HTTP) in decimal. */
  lemma ServerErrorCarriesStatus(current: string, data: Option<seq<byte>>, response: ResponseKind)
    requires !(response.Http? && IsSuccessStatus(response.statusCode))
    ensures var m := CompletionMessage(current, data, response, None);
      var prefix := "Server Error: HTTP Status Code ";
      && |m| > |prefix| && m[..|prefix|] == prefix
      && ParseInt(m[|prefix|..]) == Some(if response.Http? then response.statusCode else -1)
  {
    var prefix := "Server Error: HTTP Status Code ";
    var code := ReportedStatus(response);
    var m := ServerErrorMessage(code);
    assert m[..|prefix|] == prefix && m[|prefix|..] == IntToString(code);
    ParseIntOfIntToString(code);
  }

  /** A 2xx response without a body, or with bytes that are not UTF-8, gives
      the no-data message. */
  lemma NoDataOrInvalidEncoding(current: string, data: Option<seq<byte>>, statusCode: int)
    requires IsSuccessStatus(statusCode)
    requires data.None? || DecodeUtf8(data.value).None?
    ensures CompletionMessage(current, data, Http(statusCode), None) == NoDataMessage
  {
  }

  /** A 2xx response whose body is the UTF-8 encoding of `text` leaves the
      message that the lines of `text` give. */
  lemma MessageOfBody(current: string, text: string, statusCode: int)
    requires IsSuccessStatus(statusCode)
    ensures CompletionMessage(current, Some(Utf8(text)), Http(statusCode), None) == LastData(Lines(text), current)
  {
    DecodeUtf8OfUtf8(text);
  }

  /** An empty body holds no line and leaves the message as it was. */
  lemma EmptyBodyKeepsMessage(current: string, statusCode: int)
    requires IsSuccessStatus(statusCode)
    ensures CompletionMessage(current, Some([]), Http(statusCode), None) == current
  {
    assert Lines([]) == [];
  }

  /** Non-empty text without any line feed is one line. */
  lemma LinesOfOneLine(line: string)
    requires line != [] && forall k :: 0 <= k < |line| ==> line[k] != '\n'
    ensures Lines(line) == [line]
  {
    SegmentsWithoutLineFeed(line);
    assert NonEmpty([line]) == [line] + NonEmpty([]);
  }

  /** A body of one data line gives that line's trimmed value. */
  lemma SingleDataLine(current: string, line: string, statusCode: int)
    requires IsSuccessStatus(statusCode) && IsDataLine(line)
    requires forall k :: 0 <= k < |line| ==> line[k] != '\n'
    ensures CompletionMessage(current, Some(Utf8(line)), Http(statusCode), None)
         == Trim(line[|DataPrefix|..])
  {
    LinesOfOneLine(line);
    MessageOfBody(current, line, statusCode);
    assert LastData([line], current) == DataValue(line);
  }

  /** The stream request `connect(to:)` starts. */
  datatype StreamRequest = StreamRequest(url: Url, accept: string, reloadIgnoringLocalCacheData: bool)

  /** A data task, identified by its request. */
  datatype DataTask = DataTask(request: StreamRequest)

  class SSEClient {
    var latestMessage: string
    var task: Option<DataTask>
    /** The data tasks `disconnect` has cancelled, oldest first. */
    ghost var cancelled: seq<DataTask>

    constructor ()
      ensures latestMessage == InitialMessage && task == None && cancelled == []
    {
      latestMessage := InitialMessage;
      task := None;
      cancelled := [];
    }

    /** `connect(to:)`: a new, resumed task replaces the stored one, which is
        not cancelled; nothing else changes until its completion arrives. */
    method Connect(url: Url)
      modifies this
      ensures task == Some(DataTask(StreamRequest(url, "text/event-stream", true)))
      ensures latestMessage == old(latestMessage) && cancelled == old(cancelled)
    {
      task := Some(DataTask(StreamRequest(url, "text/event-stream", true)));
    }

    /** `disconnect()`: cancels the stored task, if any, and forgets it. */
    method Disconnect()
      modifies this
      ensures task == None && latestMessage == old(latestMessage)
      ensures cancelled == old(cancelled) + OptionToSeq(old(task))
    {
      cancelled := cancelled + OptionToSeq(task);
      task := None;
    }

    /** The data task's completion handler, on the whole response. */
    method HandleCompletion(data: Option<seq<byte>>, response: ResponseKind, error: Option<string>)
      modifies this`latestMessage
      ensures latestMessage == CompletionMessage(old(latestMessage), data, response, error)
    {
      if error.Some? {
        latestMessage := "Error: " + error.value;
        return;
      }
      if !(response.Http? && IsSuccessStatus(response.statusCode)) {
        var statusCode := if response.Http? then response.statusCode else -1;
        latestMessage := "Server Error: HTTP Status Code " + IntToString(statusCode);
        return;
      }
      if data.None? || DecodeUtf8(data.value).None? {
        latestMessage := NoDataMessage;
        return;
      }
      var message := DecodeUtf8(data.value).value;
      var lines := Lines(message);
      var i := 0;
      while i < |lines|
        invariant 0 <= i <= |lines|
        invariant latestMessage == LastData(lines[..i], old(latestMessage))
      {
        var line := lines[i];
        if IsDataLine(line) {
          var eventData := Trim(line[|DataPrefix|..]);
          latestMessage := eventData;
        }
        assert lines[..i + 1][..i] == lines[..i];
        i := i + 1;
      }
      assert lines[..i] == lines;
    }
  }

  /** Disconnecting twice leaves the client as disconnecting once does, and
      cancels nothing more. */
  method DisconnectTwice(c: SSEClient)
    modifies c
    ensures c.task == None && c.latestMessage == old(c.latestMessage)
    ensures c.cancelled == old(c.cancelled) + OptionToSeq(old(c.task))
  {
    c.Disconnect();
    c.Disconnect();
  }
}
