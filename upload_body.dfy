/**
 * The body of a file upload: four form fields, `experiment_id`, `file_type`,
 * `checksum` and `file`, in that order, the last carrying the file's bytes as
 * `application/octet-stream`.
 */
module UploadBody {
  import opened Wrappers
  import opened Bytes
  import opened Multipart

  const DispositionPrefix: string := "Content-Disposition: form-data; name=\""
  const OctetStreamHeader: string := "Content-Type: application/octet-stream"

  /** The field names of an upload, in the order they are written. */
  const FieldNames: seq<string> := ["experiment_id", "file_type", "checksum", "file"]

  /** `Content-Disposition: form-data; name="<name>"`. */
  function Disposition(name: string): string
  {
    DispositionPrefix + name + "\""
  }

  /** The four parts of an upload. */
  function UploadParts(experimentID: string, fileType: string, checksum: string,
                       filename: string, fileData: seq<byte>): seq<Part>
  {
    [ Part([Disposition("experiment_id")], Utf8(experimentID)),
      Part([Disposition("file_type")], Utf8(fileType)),
      Part([Disposition("checksum")], Utf8(checksum)),
      Part([Disposition("file") + "; filename=\"" + filename + "\"", OctetStreamHeader], fileData) ]
  }

  /** `multipart/form-data; boundary=<boundary>`, the request's Content-Type. */
  function ContentType(boundary: string): string
  {
    "multipart/form-data; boundary=" + boundary
  }

  /** The boundary a multipart Content-Type value announces. */
  function BoundaryParameter(contentType: string): Option<string>
  {
    var prefix := "multipart/form-data; boundary=";
    if |contentType| >= |prefix| && contentType[..|prefix|] == prefix
    then Some(contentType[|prefix|..]) else None
  }

  lemma BoundaryParameterOfContentType(boundary: string)
    ensures BoundaryParameter(ContentType(boundary)) == Some(boundary)
  {
    var prefix := "multipart/form-data; boundary=";
    assert ContentType(boundary)[..|prefix|] == prefix;
    assert ContentType(boundary)[|prefix|..] == boundary;
  }

  /** The text before the first double quote, if there is one. */
  function UntilQuote(s: string): (r: Option<string>)
    ensures r.Some? ==> '"' !in r.value
  {
    if s == [] then None
    else if s[0] == '"' then Some([])
    else match UntilQuote(s[1..])
      case None => None
      case Some(t) => Some([s[0]] + t)
  }

  /** The `name` parameter of a `Content-Disposition: form-data` header. */
  function DispositionName(header: string): Option<string>
  {
    if |header| >= |DispositionPrefix| && header[..|DispositionPrefix|] == DispositionPrefix
    then UntilQuote(header[|DispositionPrefix|..]) else None
  }

  lemma {:induction false} UntilQuoteOf(name: string, rest: string)
    requires '"' !in name
    ensures UntilQuote(name + "\"" + rest) == Some(name)
  {
    if name != [] {
      assert (name + "\"" + rest)[1..] == name[1..] + "\"" + rest;
      assert name[0] in name;
      UntilQuoteOf(name[1..], rest);
      assert [name[0]] + name[1..] == name;
    }
  }

  /** The name written into a disposition header reads back from it. */
  lemma DispositionNameOf(name: string, rest: string)
    requires '"' !in name
    ensures DispositionName(Disposition(name) + rest) == Some(name)
  {
    var h := Disposition(name) + rest;
    assert h == DispositionPrefix + (name + "\"" + rest);
    assert h[..|DispositionPrefix|] == DispositionPrefix;
    assert h[|DispositionPrefix|..] == name + "\"" + rest;
    UntilQuoteOf(name, rest);
  }

  /** The body exactly as `sendFile` writes it: one UTF-8 append after
      another, then the file's bytes, then the close delimiter. */
  method AssembleUploadBody(boundary: string, experimentID: string, fileType: string,
                            checksum: string, filename: string, fileData: seq<byte>)
    returns (body: seq<byte>)
    ensures body == Serialize(boundary, UploadParts(experimentID, fileType, checksum, filename, fileData))
  {
    ghost var q0 := Part([Disposition("experiment_id")], Utf8(experimentID));
    ghost var q1 := Part([Disposition("file_type")], Utf8(fileType));
    ghost var q2 := Part([Disposition("checksum")], Utf8(checksum));
    ghost var q3 := Part([Disposition("file") + "; filename=\"" + filename + "\"", OctetStreamHeader], fileData);

    body := [];
    ghost var b0 := body;
    body := body + Utf8("--" + boundary + "\r\n");
    body := body + Utf8("Content-Disposition: form-data; name=\"experiment_id\"\r\n\r\n");
    body := body + Utf8(experimentID + "\r\n");
    ExperimentIdHeader();
    TextGroup(b0, boundary, "Content-Disposition: form-data; name=\"experiment_id\"\r\n\r\n",
              "experiment_id", experimentID);

    ghost var b1 := body;
    body := body + Utf8("--" + boundary + "\r\n");
    body := body + Utf8("Content-Disposition: form-data; name=\"file_type\"\r\n\r\n");
    body := body + Utf8(fileType + "\r\n");
    FileTypeHeader();
    TextGroup(b1, boundary, "Content-Disposition: form-data; name=\"file_type\"\r\n\r\n",
              "file_type", fileType);

    ghost var b2 := body;
    body := body + Utf8("--" + boundary + "\r\n");
    body := body + Utf8("Content-Disposition: form-data; name=\"checksum\"\r\n\r\n");
    body := body + Utf8(checksum + "\r\n");
    ChecksumHeader();
    TextGroup(b2, boundary, "Content-Disposition: form-data; name=\"checksum\"\r\n\r\n",
              "checksum", checksum);

    ghost var b3 := body;
    body := body + Utf8("--" + boundary + "\r\n");
    body := body + Utf8("Content-Disposition: form-data; name=\"file\"; filename=\"" + filename + "\"\r\n");
    body := body + Utf8("Content-Type: application/octet-stream\r\n\r\n");
    body := body + fileData;
    body := body + Utf8("\r\n--" + boundary + "--\r\n");
    FileHeaders(filename);
    FileGroup(b3, boundary, "Content-Disposition: form-data; name=\"file\"; filename=\"" + filename + "\"\r\n",
              "Content-Type: application/octet-stream\r\n\r\n",
              Disposition("file") + "; filename=\"" + filename + "\"", OctetStreamHeader, fileData);

    SerializeFour(boundary, q0, q1, q2, q3);
    Regroup(body, b1, b2, b3, Encapsulation(boundary, q0), Encapsulation(boundary, q1),
            Encapsulation(boundary, q2), Encapsulation(boundary, q3) + Close(boundary));
  }

  /** One part as it sits in a body: the dash-boundary line, the part's
      bytes, and the CRLF that begins the next delimiter. */
  function Encapsulation(boundary: string, p: Part): seq<byte>
  {
    DashBoundary(boundary) + CRLF + PartBytes(p) + CRLF
  }

  /** The three appends of a text field. */
  lemma TextGroup(before: seq<byte>, boundary: string, line: string, name: string, value: string)
    requires line == Disposition(name) + "\r\n\r\n"
    ensures before + Utf8("--" + boundary + "\r\n") + Utf8(line) + Utf8(value + "\r\n")
         == before + Encapsulation(boundary, Part([Disposition(name)], Utf8(value)))
  {
    OpeningLine("--" + boundary + "\r\n", boundary);
    TextField(line, name, value);
    AppendThree(before, Utf8("--" + boundary + "\r\n"), Utf8(line), Utf8(value + "\r\n"),
                DashBoundary(boundary) + CRLF, PartBytes(Part([Disposition(name)], Utf8(value))));
  }

  /** The five appends of the file field and the close delimiter. */
  lemma FileGroup(before: seq<byte>, boundary: string, line1: string, line2: string,
                  h: string, t: string, fileData: seq<byte>)
    requires line1 == h + "\r\n" && line2 == t + "\r\n\r\n"
    ensures before + Utf8("--" + boundary + "\r\n") + Utf8(line1) + Utf8(line2) + fileData
              + Utf8("\r\n--" + boundary + "--\r\n")
         == before + (Encapsulation(boundary, Part([h, t], fileData)) + Close(boundary))
  {
    OpeningLine("--" + boundary + "\r\n", boundary);
    FileField(line1, line2, h, t, fileData);
    ClosingLines("\r\n--" + boundary + "--\r\n", boundary);
    AppendFive(before, Utf8("--" + boundary + "\r\n"), Utf8(line1), Utf8(line2), fileData,
               Utf8("\r\n--" + boundary + "--\r\n"), DashBoundary(boundary) + CRLF,
               PartBytes(Part([h, t], fileData)), Close(boundary));
  }

  // ----- the literal lines of the sender, as the parts describe them -----

  lemma ExperimentIdHeader()
    ensures "Content-Disposition: form-data; name=\"experiment_id\"\r\n\r\n"
         == Disposition("experiment_id") + "\r\n\r\n"
  {
  }

  lemma FileTypeHeader()
    ensures "Content-Disposition: form-data; name=\"file_type\"\r\n\r\n"
         == Disposition("file_type") + "\r\n\r\n"
  {
  }

  lemma ChecksumHeader()
    ensures "Content-Disposition: form-data; name=\"checksum\"\r\n\r\n"
         == Disposition("checksum") + "\r\n\r\n"
  {
  }

  lemma FileHeaders(filename: string)
    ensures "Content-Disposition: form-data; name=\"file\"; filename=\"" + filename + "\"\r\n"
         == Disposition("file") + "; filename=\"" + filename + "\"" + "\r\n"
    ensures "Content-Type: application/octet-stream\r\n\r\n" == OctetStreamHeader + "\r\n\r\n"
  {
    assert Disposition("file") + "; filename=\"" == "Content-Disposition: form-data; name=\"file\"; filename=\"";
  }

  // ----- regrouping the appends -----

  lemma Utf8Three(a: string, b: string, c: string)
    ensures Utf8(a + b + c) == Utf8(a) + Utf8(b) + Utf8(c)
  {
    Utf8Concat(a + b, c);
    Utf8Concat(a, b);
  }

  lemma Utf8CRLFCRLF()
    ensures Utf8("\r\n\r\n") == CRLF + CRLF
  {
    Utf8CRLF();
    Utf8Concat("\r\n", "\r\n");
    assert "\r\n" + "\r\n" == "\r\n\r\n";
  }

  lemma AppendThree(pre: seq<byte>, u1: seq<byte>, u2: seq<byte>, u3: seq<byte>,
                    o: seq<byte>, p: seq<byte>)
    requires u1 == o && u2 + u3 == p + CRLF
    ensures pre + u1 + u2 + u3 == pre + (o + p + CRLF)
  {
    assert pre + u1 + u2 + u3 == pre + (u1 + (u2 + u3));
  }

  lemma AppendFive(pre: seq<byte>, u1: seq<byte>, u2: seq<byte>, u3: seq<byte>, u4: seq<byte>,
                   u5: seq<byte>, o: seq<byte>, p: seq<byte>, c: seq<byte>)
    requires u1 == o && u2 + u3 + u4 == p && u5 == CRLF + c
    ensures pre + u1 + u2 + u3 + u4 + u5 == pre + (o + p + CRLF + c)
  {
    assert pre + u1 + u2 + u3 + u4 + u5 == pre + (u1 + (u2 + u3 + u4) + u5);
  }

  lemma Regroup(body: seq<byte>, b1: seq<byte>, b2: seq<byte>, b3: seq<byte>,
                x0: seq<byte>, x1: seq<byte>, x2: seq<byte>, y: seq<byte>)
    requires b1 == [] + x0 && b2 == b1 + x1 && b3 == b2 + x2 && body == b3 + y
    ensures body == x0 + (x1 + (x2 + y))
  {
  }

  lemma SerializeFour(boundary: string, q0: Part, q1: Part, q2: Part, q3: Part)
    ensures Serialize(boundary, [q0, q1, q2, q3])
         == Encapsulation(boundary, q0) + (Encapsulation(boundary, q1)
            + (Encapsulation(boundary, q2) + (Encapsulation(boundary, q3) + Close(boundary))))
  {
    assert [q0, q1, q2, q3][1..] == [q1, q2, q3];
    assert [q1, q2, q3][1..] == [q2, q3];
    assert [q2, q3][1..] == [q3];
    assert [q3][1..] == [];
    assert Serialize(boundary, [q3]) == Encapsulation(boundary, q3) + Close(boundary);
    assert Serialize(boundary, [q2, q3]) == Encapsulation(boundary, q2) + Serialize(boundary, [q3]);
    assert Serialize(boundary, [q1, q2, q3]) == Encapsulation(boundary, q1) + Serialize(boundary, [q2, q3]);
    assert Serialize(boundary, [q0, q1, q2, q3])
        == Encapsulation(boundary, q0) + Serialize(boundary, [q1, q2, q3]);
  }

  /** The bytes of a one-header text field as the sender appends them. */
  lemma TextField(line: string, name: string, value: string)
    requires line == Disposition(name) + "\r\n\r\n"
    ensures Utf8(line) + Utf8(value + "\r\n")
         == PartBytes(Part([Disposition(name)], Utf8(value))) + CRLF
  {
    var h := Disposition(name);
    Utf8CRLF();
    Utf8CRLFCRLF();
    Utf8Concat(h, "\r\n\r\n");
    Utf8Concat(value, "\r\n");
    assert HeaderBytes([h]) == Utf8(h) + CRLF + HeaderBytes([]);
    RegroupTextField(Utf8(h), Utf8(value), CRLF);
  }

  lemma RegroupTextField(h: seq<byte>, v: seq<byte>, c: seq<byte>)
    ensures h + (c + c) + (v + c) == h + c + [] + c + v + c
  {
  }

  /** The bytes of the file field as the sender appends them. */
  lemma FileField(line1: string, line2: string, h: string, t: string, fileData: seq<byte>)
    requires line1 == h + "\r\n" && line2 == t + "\r\n\r\n"
    ensures Utf8(line1) + Utf8(line2) + fileData == PartBytes(Part([h, t], fileData))
  {
    Utf8CRLF();
    Utf8CRLFCRLF();
    Utf8Concat(h, "\r\n");
    Utf8Concat(t, "\r\n\r\n");
    assert HeaderBytes([h, t]) == Utf8(h) + CRLF + HeaderBytes([t]);
    assert HeaderBytes([t]) == Utf8(t) + CRLF + HeaderBytes([]);
    RegroupFileField(Utf8(h), Utf8(t), CRLF, fileData);
  }

  lemma RegroupFileField(h: seq<byte>, t: seq<byte>, c: seq<byte>, d: seq<byte>)
    ensures h + c + (t + (c + c)) + d == h + c + (t + c + []) + c + d
  {
  }

  lemma OpeningLine(line: string, boundary: string)
    requires line == "--" + boundary + "\r\n"
    ensures Utf8(line) == DashBoundary(boundary) + CRLF
  {
    Utf8Concat("--" + boundary, "\r\n");
    Utf8CRLF();
  }

  lemma ClosingLines(line: string, boundary: string)
    requires line == "\r\n--" + boundary + "--\r\n"
    ensures Utf8(line) == CRLF + Close(boundary)
  {
    assert line == "\r\n" + ("--" + boundary) + ("--" + "\r\n");
    Utf8Three("\r\n", "--" + boundary, "--" + "\r\n");
    Utf8Concat("--", "\r\n");
    Utf8CRLF();
    Utf8Dashes();
  }

  // ----- what a receiver reads back -----

  /** Every part of an upload names its field, in the order of FieldNames. */
  lemma UploadFieldNames(experimentID: string, fileType: string, checksum: string,
                         filename: string, fileData: seq<byte>)
    ensures var parts := UploadParts(experimentID, fileType, checksum, filename, fileData);
      forall i :: 0 <= i < |parts| ==> DispositionName(parts[i].headers[0]) == Some(FieldNames[i])
  {
    DispositionNameOf("experiment_id", []);
    DispositionNameOf("file_type", []);
    DispositionNameOf("checksum", []);
    var rest := "; filename=\"" + filename + "\"";
    assert Disposition("file") + "; filename=\"" + filename + "\"" == Disposition("file") + rest;
    DispositionNameOf("file", rest);
    assert Disposition("experiment_id") + [] == Disposition("experiment_id");
    assert Disposition("file_type") + [] == Disposition("file_type");
    assert Disposition("checksum") + [] == Disposition("checksum");
  }

  /** A header line written by the sender holds no carriage return when the
      filename holds none. */
  lemma DispositionWellFormed(name: string, rest: string)
    requires '\r' !in name && '\r' !in rest
    ensures WellFormedHeader(Disposition(name) + rest)
  {
    assert '\r' !in DispositionPrefix;
    assert (Disposition(name) + rest)[0] == 'C';
  }

  predicate HeadersWellFormed(p: Part)
  {
    forall j :: 0 <= j < |p.headers| ==> WellFormedHeader(p.headers[j])
  }

  lemma TextPartWellFormed(name: string, content: seq<byte>)
    requires '\r' !in name
    ensures HeadersWellFormed(Part([Disposition(name)], content))
  {
    DispositionWellFormed(name, []);
    assert Disposition(name) + [] == Disposition(name);
  }

  lemma FilePartWellFormed(filename: string, fileData: seq<byte>)
    requires '\r' !in filename
    ensures HeadersWellFormed(Part([Disposition("file") + "; filename=\"" + filename + "\"", OctetStreamHeader], fileData))
  {
    var rest := "; filename=\"" + filename + "\"";
    DispositionWellFormed("file", rest);
    assert Disposition("file") + "; filename=\"" + filename + "\"" == Disposition("file") + rest;
    OctetStreamHeaderWellFormed();
  }

  lemma OctetStreamHeaderWellFormed()
    ensures WellFormedHeader(OctetStreamHeader)
  {
  }

  /** The header lines of an upload are ones the parser reads back when the
      filename holds no carriage return. */
  lemma UploadHeadersWellFormed(experimentID: string, fileType: string, checksum: string,
                                filename: string, fileData: seq<byte>)
    requires '\r' !in filename
    ensures var parts := UploadParts(experimentID, fileType, checksum, filename, fileData);
      forall i :: 0 <= i < |parts| ==> HeadersWellFormed(parts[i])
  {
    TextPartWellFormed("experiment_id", Utf8(experimentID));
    TextPartWellFormed("file_type", Utf8(fileType));
    TextPartWellFormed("checksum", Utf8(checksum));
    FilePartWellFormed(filename, fileData);
  }

  /** Four parts are separable at a boundary without CR that occurs in none
      of them, when their header lines are well formed. */
  lemma SeparableOfWellFormed(boundary: string, parts: seq<Part>)
    requires '\r' !in boundary
    requires forall i :: 0 <= i < |parts| ==> HeadersWellFormed(parts[i])
    requires forall i :: 0 <= i < |parts| ==> NoOccurrence(Delimiter(boundary), PartBytes(parts[i]))
    ensures Separable(boundary, parts)
  {
  }

  /** Splitting an upload body at its boundary gives back the upload's parts. */
  lemma ParseOfUploadParts(boundary: string, experimentID: string, fileType: string,
                           checksum: string, filename: string, fileData: seq<byte>)
    requires '\r' !in boundary && '\r' !in filename
    requires var parts := UploadParts(experimentID, fileType, checksum, filename, fileData);
      forall i :: 0 <= i < |parts| ==> NoOccurrence(Delimiter(boundary), PartBytes(parts[i]))
    ensures var parts := UploadParts(experimentID, fileType, checksum, filename, fileData);
      Parse(boundary, Serialize(boundary, parts)) == Some(parts)
  {
    var parts := UploadParts(experimentID, fileType, checksum, filename, fileData);
    UploadHeadersWellFormed(experimentID, fileType, checksum, filename, fileData);
    SeparableOfWellFormed(boundary, parts);
    ParseOfSerialize(boundary, parts);
  }

  /** The fields of an upload: their names in order, and what they carry. */
  lemma UploadFields(parts: seq<Part>, experimentID: string, fileType: string,
                     checksum: string, filename: string, fileData: seq<byte>)
    requires parts == UploadParts(experimentID, fileType, checksum, filename, fileData)
    ensures |parts| == 4
    ensures forall i :: 0 <= i < 4 ==> DispositionName(parts[i].headers[0]) == Some(FieldNames[i])
    ensures parts[0].content == Utf8(experimentID) && parts[1].content == Utf8(fileType)
    ensures parts[2].content == Utf8(checksum) && parts[3].content == fileData
  {
    UploadFieldNames(experimentID, fileType, checksum, filename, fileData);
  }
}
