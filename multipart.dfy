/**
 * `multipart/form-data` bodies (section 5.1.1 of RFC 2046, section 4.2 of
 * RFC 7578) as the sync engine writes them: every part is introduced by the
 * dash-boundary line `--B` CRLF, carries header lines each ended by CRLF, an
 * empty line and its content, and is followed by CRLF; the body ends with the
 * close delimiter `--B--` CRLF.
 *
 * The partner of the serialiser is a parser that splits a body at the
 * delimiter CRLF `--B` and reads each part's header lines. When the boundary
 * holds no carriage return and no part contains the delimiter, the parser
 * gives back exactly the parts that were serialised.
 */
module Multipart {
  import opened Wrappers
  import opened Bytes

  const CRLF: seq<byte> := [13, 10]
  const Dashes: seq<byte> := [45, 45]

  /** A body part: its header lines (without their CRLF) and its content. */
  datatype Part = Part(headers: seq<string>, content: seq<byte>)

  function HeaderBytes(headers: seq<string>): seq<byte>
  {
    if headers == [] then [] else Utf8(headers[0]) + CRLF + HeaderBytes(headers[1..])
  }

  /** The header lines, the empty line, and the content. */
  function PartBytes(p: Part): seq<byte>
  {
    HeaderBytes(p.headers) + CRLF + p.content
  }

  /** `--B`, the dash-boundary. */
  function DashBoundary(boundary: string): seq<byte>
  {
    Utf8("--" + boundary)
  }

  /** CRLF `--B`, the delimiter that ends every part. */
  function Delimiter(boundary: string): seq<byte>
  {
    CRLF + DashBoundary(boundary)
  }

  /** `--B--` CRLF, the close delimiter's last line. */
  function Close(boundary: string): seq<byte>
  {
    DashBoundary(boundary) + Dashes + CRLF
  }

  /** The whole body: each part as `--B` CRLF, its bytes, CRLF; then
      `--B--` CRLF. */
  function Serialize(boundary: string, parts: seq<Part>): seq<byte>
  {
    if parts == [] then Close(boundary)
    else DashBoundary(boundary) + CRLF + PartBytes(parts[0]) + CRLF + Serialize(boundary, parts[1..])
  }

  // ----- searching for a byte pattern -----

  predicate OccursAt(pat: seq<byte>, s: seq<byte>, j: nat)
  {
    j + |pat| <= |s| && s[j..j + |pat|] == pat
  }

  predicate NoOccurrence(pat: seq<byte>, s: seq<byte>)
  {
    forall j: nat :: j <= |s| ==> !OccursAt(pat, s, j)
  }

  /** The first position at or after `i` where `pat` occurs in `s`. */
  function FindFrom(pat: seq<byte>, s: seq<byte>, i: nat): (r: Option<nat>)
    requires |pat| > 0
    ensures r.Some? ==> i <= r.value && OccursAt(pat, s, r.value)
    ensures r.Some? ==> forall j: nat :: i <= j < r.value ==> !OccursAt(pat, s, j)
    ensures r.None? ==> forall j: nat :: i <= j ==> !OccursAt(pat, s, j)
    decreases |s| - i
  {
    if i + |pat| > |s| then None
    else if s[i..i + |pat|] == pat then Some(i)
    else FindFrom(pat, s, i + 1)
  }

  function Find(pat: seq<byte>, s: seq<byte>): Option<nat>
    requires |pat| > 0
  {
    FindFrom(pat, s, 0)
  }

  /** A pattern whose first byte does not recur in it is found right after a
      prefix that does not contain it. */
  lemma FindAfter(pat: seq<byte>, p: seq<byte>, r: seq<byte>)
    requires |pat| > 0
    requires forall m :: 1 <= m < |pat| ==> pat[m] != pat[0]
    requires NoOccurrence(pat, p)
    ensures Find(pat, p + pat + r) == Some(|p|)
  {
    var s := p + pat + r;
    assert OccursAt(pat, s, |p|) by {
      assert s[|p|..|p| + |pat|] == pat;
    }
    forall j: nat | j < |p|
      ensures !OccursAt(pat, s, j)
    {
      if j + |pat| <= |p| {
        assert s[j..j + |pat|] == p[j..j + |pat|];
        assert !OccursAt(pat, p, j);
      } else if j + |pat| <= |s| {
        var m := |p| - j;
        assert s[j..j + |pat|][m] == s[|p|] == pat[0];
        assert pat[m] != pat[0];
      }
    }
  }

  lemma CRLFFirstByteDoesNotRecur()
    ensures forall m :: 1 <= m < |CRLF| ==> CRLF[m] != CRLF[0]
  {
  }

  lemma Utf8Dashes()
    ensures Utf8("--") == Dashes
  {
    assert Utf8("-") == EncodeChar('-') + Utf8([]);
    assert Utf8("--") == EncodeChar('-') + Utf8("-");
  }

  lemma Utf8CRLF()
    ensures Utf8("\r\n") == CRLF
  {
    assert Utf8("\n") == EncodeChar('\n') + Utf8([]);
    assert Utf8("\r\n") == EncodeChar('\r') + Utf8("\n");
  }

  lemma DashBoundaryBytes(boundary: string)
    ensures DashBoundary(boundary) == Dashes + Utf8(boundary)
  {
    Utf8Concat("--", boundary);
    Utf8Dashes();
  }

  /** With no carriage return in the boundary, the delimiter's leading CR
      occurs nowhere else in it, so it cannot overlap a shifted copy of itself. */
  lemma DelimiterFirstByteDoesNotRecur(boundary: string)
    requires '\r' !in boundary
    ensures forall m :: 1 <= m < |Delimiter(boundary)| ==> Delimiter(boundary)[m] != Delimiter(boundary)[0]
  {
    var d := Delimiter(boundary);
    DashBoundaryBytes(boundary);
    Utf8NoCR(boundary);
    var u := Utf8(boundary);
    assert d == CRLF + Dashes + u;
    forall m | 1 <= m < |d|
      ensures d[m] != d[0]
    {
      if m >= 4 {
        assert d[m] == u[m - 4];
        assert u[m - 4] in u;
      }
    }
  }

  // ----- the parser -----

  /** The bytes of each part of `s`, which starts at a dash-boundary line:
      `--` after it closes the body (anything later is an epilogue and is
      ignored); CRLF after it opens a part that runs up to the next
      delimiter CRLF `--B`. */
  function SplitFrom(d: seq<byte>, s: seq<byte>): Option<seq<seq<byte>>>
    decreases |s|
  {
    if |s| >= |d| + 2 && s[..|d|] == d then
      var after := s[|d|..];
      if after[..2] == Dashes then Some([])
      else if after[..2] == CRLF then
        var rest := after[2..];
        match Find(CRLF + d, rest)
        case None => None
        case Some(k) =>
          match SplitFrom(d, rest[k + 2..])
          case None => None
          case Some(chunks) => Some([rest[..k]] + chunks)
      else None
    else None
  }

  /** The bytes of each part of `body`, or None when the body is not
      delimited by `boundary`. */
  function SplitBody(boundary: string, body: seq<byte>): Option<seq<seq<byte>>>
  {
    SplitFrom(DashBoundary(boundary), body)
  }

  /** Reads the header lines of a part up to the empty line; the rest is the
      content. */
  function ParseHeaders(s: seq<byte>): Option<Part>
    decreases |s|
  {
    match Find(CRLF, s)
    case None => None
    case Some(k) =>
      if k == 0 then Some(Part([], s[2..]))
      else match (DecodeUtf8(s[..k]), ParseHeaders(s[k + 2..]))
        case (Some(h), Some(p)) => Some(Part([h] + p.headers, p.content))
        case _ => None
  }

  function ParseEach(chunks: seq<seq<byte>>): Option<seq<Part>>
  {
    if chunks == [] then Some([])
    else match (ParseHeaders(chunks[0]), ParseEach(chunks[1..]))
      case (Some(p), Some(ps)) => Some([p] + ps)
      case _ => None
  }

  /** The parts of a `multipart/form-data` body with the given boundary. */
  function Parse(boundary: string, body: seq<byte>): Option<seq<Part>>
  {
    match SplitBody(boundary, body)
    case None => None
    case Some(chunks) => ParseEach(chunks)
  }

  // ----- the round trip -----

  /** A header line the parser can read back: not empty and without CR. */
  predicate WellFormedHeader(h: string)
  {
    h != [] && '\r' !in h
  }

  /** What the round trip needs: a boundary without CR, header lines the
      parser can read back, and no part containing the delimiter. */
  predicate Separable(boundary: string, parts: seq<Part>)
  {
    && '\r' !in boundary
    && (forall i, j :: 0 <= i < |parts| && 0 <= j < |parts[i].headers| ==> WellFormedHeader(parts[i].headers[j]))
    && (forall i :: 0 <= i < |parts| ==> NoOccurrence(Delimiter(boundary), PartBytes(parts[i])))
  }

  lemma NoCRNoCRLF(s: seq<byte>)
    requires CR !in s
    ensures NoOccurrence(CRLF, s)
  {
    forall j: nat | j <= |s|
      ensures !OccursAt(CRLF, s, j)
    {
      if j + 2 <= |s| {
        assert s[j..j + 2][0] == s[j];
        assert s[j] in s;
      }
    }
  }

  lemma {:induction false} ParseHeadersOfPartBytes(p: Part)
    requires forall j :: 0 <= j < |p.headers| ==> WellFormedHeader(p.headers[j])
    ensures ParseHeaders(PartBytes(p)) == Some(p)
    decreases |p.headers|
  {
    var s := PartBytes(p);
    if p.headers == [] {
      assert s == CRLF + p.content;
      assert OccursAt(CRLF, s, 0);
    } else {
      var h := p.headers[0];
      var q := Part(p.headers[1..], p.content);
      var u := Utf8(h);
      assert s == u + CRLF + PartBytes(q);
      assert WellFormedHeader(h);
      Utf8NoCR(h);
      NoCRNoCRLF(u);
      CRLFFirstByteDoesNotRecur();
      FindAfter(CRLF, u, PartBytes(q));
      assert |u| > 0 by {
        assert Utf8(h) == EncodeChar(h[0]) + Utf8(h[1..]);
      }
      assert s[..|u|] == u;
      assert s[|u| + 2..] == PartBytes(q);
      DecodeUtf8OfUtf8(h);
      ParseHeadersOfPartBytes(q);
      assert [h] + q.headers == p.headers;
    }
  }

  /** A serialised body starts with the dash-boundary. */
  lemma SerializeStartsWithDashBoundary(boundary: string, parts: seq<Part>)
    ensures exists t :: Serialize(boundary, parts) == DashBoundary(boundary) + t
  {
    var d := DashBoundary(boundary);
    if parts == [] {
      assert Serialize(boundary, parts) == d + (Dashes + CRLF);
    } else {
      assert Serialize(boundary, parts)
          == d + (CRLF + PartBytes(parts[0]) + CRLF + Serialize(boundary, parts[1..]));
    }
  }

  function AllPartBytes(parts: seq<Part>): (r: seq<seq<byte>>)
    ensures |r| == |parts|
    ensures forall i :: 0 <= i < |parts| ==> r[i] == PartBytes(parts[i])
  {
    if parts == [] then [] else [PartBytes(parts[0])] + AllPartBytes(parts[1..])
  }

  /** A non-empty body is its first part's encapsulation followed by the
      rest, which again starts with the dash-boundary. */
  lemma SerializeCons(boundary: string, parts: seq<Part>) returns (t: seq<byte>)
    requires parts != []
    ensures Serialize(boundary, parts[1..]) == DashBoundary(boundary) + t
    ensures Serialize(boundary, parts)
         == DashBoundary(boundary) + (CRLF + (PartBytes(parts[0]) + (Delimiter(boundary) + t)))
  {
    var d := DashBoundary(boundary);
    SerializeStartsWithDashBoundary(boundary, parts[1..]);
    t :| Serialize(boundary, parts[1..]) == d + t;
    RegroupEncapsulation(d, CRLF, PartBytes(parts[0]), Serialize(boundary, parts[1..]), t);
  }

  lemma RegroupEncapsulation<T>(d: seq<T>, sep: seq<T>, pb: seq<T>, rest: seq<T>, t: seq<T>)
    requires rest == d + t
    ensures d + sep + pb + sep + rest == d + (sep + (pb + ((sep + d) + t)))
  {
  }

  /** One step of the splitter: the part that runs from the opening line to
      the first delimiter. */
  lemma SplitFromUnfold(d: seq<byte>, rest: seq<byte>, s: seq<byte>, k: nat)
    requires s == d + (CRLF + rest)
    requires Find(CRLF + d, rest) == Some(k)
    ensures SplitFrom(d, s) == match SplitFrom(d, rest[k + 2..])
            case None => None
            case Some(chunks) => Some([rest[..k]] + chunks)
  {
    var after := CRLF + rest;
    assert s[..|d|] == d;
    assert s[|d|..] == after;
    assert after[..2] == CRLF && after[2..] == rest;
    assert CRLF != Dashes by { assert CRLF[0] != Dashes[0]; }
  }

  lemma SplitFromCons(d: seq<byte>, pb: seq<byte>, t: seq<byte>)
    requires Find(CRLF + d, pb + ((CRLF + d) + t)) == Some(|pb|)
    ensures SplitFrom(d, d + (CRLF + (pb + ((CRLF + d) + t))))
         == match SplitFrom(d, d + t)
            case None => None
            case Some(chunks) => Some([pb] + chunks)
  {
    var rest := pb + ((CRLF + d) + t);
    SplitAtDelimiter(pb, CRLF, d, t);
    SplitFromUnfold(d, rest, d + (CRLF + rest), |pb|);
  }

  /** The slices of a part's bytes followed by a two-element separator and
      the rest. */
  lemma SplitAtDelimiter<T>(pb: seq<T>, sep: seq<T>, d: seq<T>, t: seq<T>)
    requires |sep| == 2
    ensures (pb + ((sep + d) + t))[..|pb|] == pb
    ensures (pb + ((sep + d) + t))[|pb| + 2..] == d + t
  {
    var rest := pb + ((sep + d) + t);
    assert rest == (pb + sep) + (d + t);
  }

  lemma SeparableTail(boundary: string, parts: seq<Part>)
    requires parts != [] && Separable(boundary, parts)
    ensures NoOccurrence(Delimiter(boundary), PartBytes(parts[0]))
    ensures Separable(boundary, parts[1..])
  {
    var rest := parts[1..];
    forall i | 0 <= i < |rest|
      ensures NoOccurrence(Delimiter(boundary), PartBytes(rest[i]))
    {
      assert rest[i] == parts[i + 1];
    }
    forall i, j | 0 <= i < |rest| && 0 <= j < |rest[i].headers|
      ensures WellFormedHeader(rest[i].headers[j])
    {
      assert rest[i] == parts[i + 1];
    }
  }

  lemma {:induction false} SplitBodyOfSerialize(boundary: string, parts: seq<Part>)
    requires Separable(boundary, parts)
    ensures SplitBody(boundary, Serialize(boundary, parts)) == Some(AllPartBytes(parts))
    decreases |parts|
  {
    var d := DashBoundary(boundary);
    if parts == [] {
      var s := Serialize(boundary, parts);
      assert s == d + (Dashes + CRLF);
      assert s[..|d|] == d && s[|d|..] == Dashes + CRLF;
    } else {
      var pb := PartBytes(parts[0]);
      var t := SerializeCons(boundary, parts);
      SeparableTail(boundary, parts);
      DelimiterFirstByteDoesNotRecur(boundary);
      FindAfter(CRLF + d, pb, t);
      assert pb + (CRLF + d) + t == pb + ((CRLF + d) + t);
      SplitFromCons(d, pb, t);
      SplitBodyOfSerialize(boundary, parts[1..]);
      assert AllPartBytes(parts) == [pb] + AllPartBytes(parts[1..]);
    }
  }

  lemma {:induction false} ParseEachOfPartBytes(parts: seq<Part>)
    requires forall i, j :: 0 <= i < |parts| && 0 <= j < |parts[i].headers| ==> WellFormedHeader(parts[i].headers[j])
    ensures ParseEach(AllPartBytes(parts)) == Some(parts)
  {
    if parts != [] {
      ParseHeadersOfPartBytes(parts[0]);
      var chunks := AllPartBytes(parts);
      assert chunks[1..] == AllPartBytes(parts[1..]);
      ParseEachOfPartBytes(parts[1..]);
      assert [parts[0]] + parts[1..] == parts;
    }
  }

  /** Round trip: parsing a serialised body gives back its parts, headers and
      content unmodified, in order. */
  lemma ParseOfSerialize(boundary: string, parts: seq<Part>)
    requires Separable(boundary, parts)
    ensures Parse(boundary, Serialize(boundary, parts)) == Some(parts)
  {
    SplitBodyOfSerialize(boundary, parts);
    ParseEachOfPartBytes(parts);
  }
}
