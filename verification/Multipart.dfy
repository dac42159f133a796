/** The single-file multipart parser. A byte is a char below 256, and header text is not
    decoded: all comparisons the parser makes are with ASCII text. */
module Multipart {
  import opened Prelude

  type Bytes = string

  const CRLF: Bytes := "\r\n"
  const BLANK_LINE: Bytes := "\r\n\r\n"
  const ENVELOPE: nat := 32 * 1024

  datatype Evidence = Evidence(bytes: Bytes, filename: string, contentType: string)
  datatype Refusal = NotMultipart | TooLarge | Malformed | NoFileField
  datatype Upload = Accepted(evidence: Evidence) | Refused(why: Refusal)

  // -------------------------------------------------------------------- searching

  predicate OccursAt(text: Bytes, pattern: Bytes, i: nat) {
    i + |pattern| <= |text| && text[i..i + |pattern|] == pattern
  }

  ghost predicate Occurs(text: Bytes, pattern: Bytes) {
    exists i: nat :: OccursAt(text, pattern, i)
  }

  /** Buffer.indexOf: the first occurrence at or after `from`. */
  function IndexOf(text: Bytes, pattern: Bytes, from: nat): (r: Option<nat>)
    ensures r.Some? ==> r.value >= from && OccursAt(text, pattern, r.value)
    ensures r.Some? ==> forall i: nat :: from <= i < r.value ==> !OccursAt(text, pattern, i)
    ensures r.None? ==> forall i: nat :: from <= i ==> !OccursAt(text, pattern, i)
    decreases |text| - from
  {
    if OccursAt(text, pattern, from) then Some(from)
    else if from >= |text| then None
    else IndexOf(text, pattern, from + 1)
  }

  predicate StartsWithAnyCase(line: string, prefix: string) {
    |prefix| <= |line| && Lower(line[..|prefix|]) == prefix
  }

  /** String.split on CRLF. */
  function Lines(text: Bytes): (r: seq<string>)
    ensures r != []
    decreases |text|
  {
    var i := IndexOf(text, CRLF, 0);
    if i.None? then [text] else [text[..i.value]] + Lines(text[i.value + 2..])
  }

  function FirstStarting(lines: seq<string>, prefix: string): (r: Option<string>)
    ensures r.Some? ==> r.value in lines && StartsWithAnyCase(r.value, prefix)
  {
    if lines == [] then None
    else if StartsWithAnyCase(lines[0], prefix) then Some(lines[0])
    else FirstStarting(lines[1..], prefix)
  }

  /** The text up to the next double quote, if there is one. */
  function UpToQuote(text: string): Option<string> {
    if text == "" then None
    else if text[0] == '"' then Some("")
    else
      var r := UpToQuote(text[1..]);
      if r.Some? then Some([text[0]] + r.value) else None
  }

  /** `key` (which ends in a quote), in any case, followed by text up to the closing quote. */
  function ParameterStart(text: string, key: string): Option<string> {
    if StartsWithAnyCase(text, key) then UpToQuote(text[|key|..]) else None
  }

  /** The first such match. */
  function Parameter(line: string, key: string): Option<string>
    decreases |line|
  {
    if ParameterStart(line, key).Some? then ParameterStart(line, key)
    else if line == "" then None
    else Parameter(line[1..], key)
  }

  function UpToSemicolon(text: string): string {
    if text == "" || text[0] == ';' then "" else [text[0]] + UpToSemicolon(text[1..])
  }

  /** A boundary parameter at the start of a text: quoted and not empty, or else everything
      up to a semicolon and not empty. */
  function BoundaryStart(text: string): Option<string> {
    if !StartsWithAnyCase(text, "boundary=") then None
    else
      var rest := text[|"boundary="|..];
      var quoted := if rest != "" && rest[0] == '"' then UpToQuote(rest[1..]) else None;
      if quoted.Some? && quoted.value != "" then quoted
      else if UpToSemicolon(rest) != "" then Some(UpToSemicolon(rest))
      else None
  }

  function BoundaryOf(header: string): Option<string>
    decreases |header|
  {
    if BoundaryStart(header).Some? then BoundaryStart(header)
    else if header == "" then None
    else BoundaryOf(header[1..])
  }

  // ------------------------------------------------ what the expressions match

  /** A value in quotes at the start of a text: everything up to the first quote. */
  ghost predicate Quoted(text: string, value: string) {
    '"' !in value && value + "\"" <= text
  }

  /** Everything up to a semicolon or the end. */
  ghost predicate Bare(text: string, value: string) {
    ';' !in value && value <= text && (value == text || text[|value|] == ';')
  }

  ghost predicate KeyAt(text: string, key: string, i: nat) {
    i + |key| <= |text| && Lower(text[i..i + |key|]) == key
  }

  /** `boundary=`, in any case, and then a quoted value or, failing that, a bare one. */
  ghost predicate BoundaryAt(header: string, i: nat, value: string) {
    && KeyAt(header, "boundary=", i)
    && value != ""
    && var rest := header[i + 9..];
       (("\"" <= rest && Quoted(rest[1..], value)) ||
        (Bare(rest, value) && !("\"" <= rest && exists v :: v != "" && Quoted(rest[1..], v))))
  }

  ghost predicate ParameterAt(line: string, key: string, i: nat, value: string) {
    KeyAt(line, key, i) && Quoted(line[i + |key|..], value)
  }

  lemma {:induction false} QuoteExactly(text: string, value: string)
    ensures UpToQuote(text) == Some(value) <==> Quoted(text, value)
    decreases |text|
  {
    if text != "" && text[0] != '"' {
      if value == "" {
        assert !Quoted(text, value);
      } else {
        QuoteExactly(text[1..], value[1..]);
        assert value == [value[0]] + value[1..] && text == [text[0]] + text[1..];
        assert value + "\"" <= text <==> value[0] == text[0] && value[1..] + "\"" <= text[1..] by {
          assert value + "\"" == [value[0]] + (value[1..] + "\"");
        }
      }
    }
  }

  lemma {:induction false} SemicolonExactly(text: string, value: string)
    ensures UpToSemicolon(text) == value <==> Bare(text, value)
    decreases |text|
  {
    if text != "" && text[0] != ';' {
      if value != "" {
        SemicolonExactly(text[1..], value[1..]);
        assert value == [value[0]] + value[1..] && text == [text[0]] + text[1..];
        assert UpToSemicolon(text) == [text[0]] + UpToSemicolon(text[1..]);
        assert value <= text <==> value[0] == text[0] && value[1..] <= text[1..];
      }
    }
  }

  /** A match further on is a match in the rest of the text. */
  lemma KeyShifts(text: string, key: string, i: nat)
    requires text != ""
    ensures KeyAt(text, key, i + 1) <==> KeyAt(text[1..], key, i)
    ensures i + 1 + |key| <= |text| ==> text[i + 1 + |key|..] == text[1..][i + |key|..]
  {
    if i + 1 + |key| <= |text| { assert text[i + 1..i + 1 + |key|] == text[1..][i..i + |key|]; }
  }

  lemma KeyHere(text: string, key: string)
    ensures KeyAt(text, key, 0) <==> StartsWithAnyCase(text, key)
  {
  }

  lemma ParameterShifts(line: string, key: string, i: nat, value: string)
    requires line != ""
    ensures ParameterAt(line, key, i + 1, value) <==> ParameterAt(line[1..], key, i, value)
  {
    KeyShifts(line, key, i);
  }

  lemma BoundaryShifts(header: string, i: nat, value: string)
    requires header != ""
    ensures BoundaryAt(header, i + 1, value) <==> BoundaryAt(header[1..], i, value)
  {
    KeyShifts(header, "boundary=", i);
  }

  lemma ParameterHereExactly(line: string, key: string, value: string)
    ensures ParameterAt(line, key, 0, value) <==> ParameterStart(line, key) == Some(value)
  {
    KeyHere(line, key);
    if |key| <= |line| { QuoteExactly(line[|key|..], value); }
  }

  lemma BoundaryHereExactly(header: string, value: string)
    ensures BoundaryAt(header, 0, value) <==> BoundaryStart(header) == Some(value)
  {
    KeyHere(header, "boundary=");
    if 9 <= |header| {
      var rest := header[9..];
      SemicolonExactly(rest, value);
      if rest != "" {
        forall v ensures UpToQuote(rest[1..]) == Some(v) <==> Quoted(rest[1..], v) { QuoteExactly(rest[1..], v); }
      }
    }
  }

  /** The first place where the parameter expression matches. */
  lemma {:induction false} FirstParameter(line: string, key: string) returns (i: nat)
    ensures var r := Parameter(line, key);
            && (forall j: nat, v :: ParameterAt(line, key, j, v) ==> r.Some? && i <= j && (i == j ==> r == Some(v)))
            && (r.Some? ==> ParameterAt(line, key, i, r.value))
    decreases |line|
  {
    hide KeyAt, Quoted, ParameterStart;
    i := 0;
    forall v ensures ParameterAt(line, key, 0, v) <==> ParameterStart(line, key) == Some(v) {
      ParameterHereExactly(line, key, v);
    }
    if line == "" {
      forall j: nat, v | j > 0 ensures !ParameterAt(line, key, j, v) { BeyondEnd(line, key, j); }
    } else {
      forall j: nat, v | j > 0 ensures ParameterAt(line, key, j, v) <==> ParameterAt(line[1..], key, j - 1, v) {
        ParameterShifts(line, key, j - 1, v);
      }
      if ParameterStart(line, key).None? {
        i := FirstParameter(line[1..], key);
        i := i + 1;
      }
    }
  }

  lemma BeyondEnd(text: string, key: string, i: nat)
    requires i > |text|
    ensures !KeyAt(text, key, i)
  {
  }

  /** The first place where the boundary expression matches. */
  lemma {:induction false} FirstBoundary(header: string) returns (i: nat)
    ensures var r := BoundaryOf(header);
            && (forall j: nat, v :: BoundaryAt(header, j, v) ==> r.Some? && i <= j && (i == j ==> r == Some(v)))
            && (r.Some? ==> BoundaryAt(header, i, r.value))
    decreases |header|
  {
    hide BoundaryAt, BoundaryStart;
    i := 0;
    forall v ensures BoundaryAt(header, 0, v) <==> BoundaryStart(header) == Some(v) { BoundaryHereExactly(header, v); }
    if header == "" {
      forall j: nat, v | j > 0 ensures !BoundaryAt(header, j, v) { NoBoundaryBeyond(header, j, v); }
    } else {
      forall j: nat, v | j > 0 ensures BoundaryAt(header, j, v) <==> BoundaryAt(header[1..], j - 1, v) {
        BoundaryShifts(header, j - 1, v);
      }
      if BoundaryStart(header).None? {
        i := FirstBoundary(header[1..]);
        i := i + 1;
      }
    }
  }

  lemma NoBoundaryBeyond(header: string, i: nat, value: string)
    requires i > |header|
    ensures !BoundaryAt(header, i, value)
  {
  }

  /** A parameter search answers a value exactly when the value stands at the first place
      where the expression matches at all. */
  lemma ParameterExactly(line: string, key: string, value: string)
    ensures Parameter(line, key) == Some(value)
            <==> exists i: nat :: ParameterAt(line, key, i, value) && forall j: nat, v :: j < i ==> !ParameterAt(line, key, j, v)
  {
    hide ParameterAt, Parameter;
    var i := FirstParameter(line, key);
    assert Parameter(line, key).Some? ==> ParameterAt(line, key, i, Parameter(line, key).value);
  }

  /** The boundary is what the expression matches first, a quoted value before a bare one. */
  lemma BoundaryExactly(header: string, value: string)
    ensures BoundaryOf(header) == Some(value)
            <==> exists i: nat :: BoundaryAt(header, i, value) && forall j: nat, v :: j < i ==> !BoundaryAt(header, j, v)
  {
    hide BoundaryAt, BoundaryOf;
    var i := FirstBoundary(header);
    assert BoundaryOf(header).Some? ==> BoundaryAt(header, i, BoundaryOf(header).value);
  }

  // ------------------------------------------------------------------ the parser

  function Marker(boundary: string): Bytes {
    "\r\n--" + boundary + "--"
  }

  /** What the part headers make of the bytes between them and the close marker. */
  function Describe(block: Bytes, bytes: Bytes, max: nat): Upload {
    var lines := Lines(block);
    var found := FirstStarting(lines, "content-disposition:");
    var disposition := if found.Some? then found.value else "";
    var filename := Parameter(disposition, "filename=\"");
    var name := Parameter(disposition, "name=\"");
    if filename.None? || name.None? || name.value !in ["file", "evidence"] then Refused(NoFileField)
    else if |bytes| > max then Refused(TooLarge)
    else
      var typeLine := FirstStarting(lines, "content-type:");
      var declared := if typeLine.Some? then Lower(Trim(typeLine.value[|"content-type:"|..])) else "";
      Accepted(Evidence(bytes, filename.value, if declared != "" then declared else "application/octet-stream"))
  }

  function ParseBody(boundary: string, body: Bytes, max: nat): Upload {
    var headerEnd := IndexOf(body, BLANK_LINE, 0);
    if headerEnd.None? then Refused(Malformed)
    else
      var fileStart := headerEnd.value + 4;
      var fileEnd := IndexOf(body, Marker(boundary), fileStart);
      if fileEnd.None? then Refused(Malformed)
      else Describe(body[..headerEnd.value], body[fileStart..fileEnd.value], max)
  }

  /** The answer to a request whose body, however it arrives, adds up to `body`. */
  function Answer(header: string, body: Bytes, max: nat): Upload {
    match BoundaryOf(header)
    case None => Refused(NotMultipart)
    case Some(boundary) => if |body| > max + ENVELOPE then Refused(TooLarge) else ParseBody(boundary, body, max)
  }

  function Concat(chunks: seq<Bytes>): Bytes {
    if chunks == [] then "" else Concat(chunks[..|chunks| - 1]) + chunks[|chunks| - 1]
  }

  lemma {:induction false} ConcatGrows(chunks: seq<Bytes>, k: nat)
    requires k <= |chunks|
    ensures |Concat(chunks[..k])| <= |Concat(chunks)|
    decreases |chunks|
  {
    if k < |chunks| {
      ConcatGrows(chunks[..|chunks| - 1], k);
      assert chunks[..|chunks| - 1][..k] == chunks[..k];
    } else {
      assert chunks[..k] == chunks;
    }
  }

  /** The parser as it reads: chunk by chunk, giving up as soon as too much has arrived. The
      outcome, a refusal for size included, is a function of the bytes alone: it does not
      depend on how they are cut into chunks. */
  method ReadEvidence(header: string, chunks: seq<Bytes>, max: nat) returns (r: Upload)
    ensures r == Answer(header, Concat(chunks), max)
  {
    var boundary := BoundaryOf(header);
    if boundary.None? {
      return Refused(NotMultipart);
    }
    var received: seq<Bytes> := [];
    var total := 0;
    for k := 0 to |chunks|
      invariant received == chunks[..k]
      invariant total == |Concat(chunks[..k])| <= max + ENVELOPE
    {
      var value := chunks[k];
      total := total + |value|;
      assert chunks[..k + 1][..k] == chunks[..k];
      if total > max + ENVELOPE {
        ConcatGrows(chunks, k + 1);
        return Refused(TooLarge);
      }
      received := received + [value];
    }
    assert received == chunks;
    var body := Concat(received);
    var headerEnd := IndexOf(body, BLANK_LINE, 0);
    if headerEnd.None? {
      return Refused(Malformed);
    }
    var fileStart := headerEnd.value + 4;
    var fileEnd := IndexOf(body, Marker(boundary.value), fileStart);
    if fileEnd.None? {
      return Refused(Malformed);
    }
    r := Describe(body[..headerEnd.value], body[fileStart..fileEnd.value], max);
  }

  // ---------------------------------------------------------- where the parts end

  /** A single-part body, with anything after the close marker. */
  function Compose(boundary: string, block: Bytes, file: Bytes, rest: Bytes): Bytes {
    block + BLANK_LINE + file + Marker(boundary) + rest
  }

  predicate NoCr(s: string) {
    '\r' !in s
  }

  predicate EndsWith(s: Bytes, suffix: Bytes) {
    |suffix| <= |s| && s[|s| - |suffix|..] == suffix
  }

  lemma Mismatch(text: Bytes, pattern: Bytes, i: nat, k: nat)
    requires k < |pattern| && i + k < |text| && text[i + k] != pattern[k]
    ensures !OccursAt(text, pattern, i)
  {
    if i + |pattern| <= |text| { assert text[i..i + |pattern|][k] == text[i + k]; }
  }

  /** The blank line overlaps itself, so the first one found is the one after the header
      block exactly when the block neither contains one nor ends in a line end. */
  lemma HeaderBlockEnds(block: Bytes, tail: Bytes)
    ensures IndexOf(block + BLANK_LINE + tail, BLANK_LINE, 0) == Some(|block|)
            <==> !Occurs(block, BLANK_LINE) && !EndsWith(block, CRLF)
  {
    var text := block + BLANK_LINE + tail;
    var n := |block|;
    assert text[n..n + 4] == BLANK_LINE;
    assert OccursAt(text, BLANK_LINE, n);
    if !Occurs(block, BLANK_LINE) && !EndsWith(block, CRLF) {
      forall i: nat | i < n ensures !OccursAt(text, BLANK_LINE, i) {
        if i + 4 <= n {
          assert !OccursAt(block, BLANK_LINE, i);
          assert text[i..i + 4] == block[i..i + 4];
        } else if i + 2 == n {
          assert block[n - 2..] == [block[n - 2], block[n - 1]];
          Mismatch(text, BLANK_LINE, i, if block[n - 2] != '\r' then 0 else 1);
        } else {
          Mismatch(text, BLANK_LINE, i, n - i);
        }
      }
    } else if Occurs(block, BLANK_LINE) {
      var i: nat :| OccursAt(block, BLANK_LINE, i);
      assert text[i..i + 4] == block[i..i + 4];
      assert OccursAt(text, BLANK_LINE, i);
    } else {
      assert text[n - 2..n + 2] == block[n - 2..] + CRLF;
      assert OccursAt(text, BLANK_LINE, n - 2);
    }
  }

  lemma Shifted(before: Bytes, tail: Bytes, pattern: Bytes, k: nat)
    ensures OccursAt(before + tail, pattern, |before| + k) <==> OccursAt(tail, pattern, k)
  {
    if k + |pattern| <= |tail| {
      assert (before + tail)[|before| + k..|before| + k + |pattern|] == tail[k..k + |pattern|];
    }
  }

  /** Searching from the end of a prefix is searching what follows it. */
  lemma IndexShift(before: Bytes, tail: Bytes, pattern: Bytes, k: nat)
    requires IndexOf(tail, pattern, 0) == Some(k)
    ensures IndexOf(before + tail, pattern, |before|) == Some(|before| + k)
  {
    hide IndexOf;
    hide OccursAt;
    Shifted(before, tail, pattern, k);
    forall i: nat | |before| <= i < |before| + k ensures !OccursAt(before + tail, pattern, i) {
      Shifted(before, tail, pattern, i - |before|);
    }
  }

  /** After a sound header block, the file is whatever comes before the first marker. */
  lemma BodyCut(boundary: string, block: Bytes, tail: Bytes, max: nat, k: nat)
    requires !Occurs(block, BLANK_LINE) && !EndsWith(block, CRLF)
    requires IndexOf(tail, Marker(boundary), 0) == Some(k)
    ensures ParseBody(boundary, block + BLANK_LINE + tail, max) == Describe(block, tail[..k], max)
  {
    hide Describe;
    hide IndexOf;
    var body := block + BLANK_LINE + tail;
    HeaderBlockEnds(block, tail);
    IndexShift(block + BLANK_LINE, tail, Marker(boundary), k);
    assert body[..|block|] == block;
    assert body[|block| + 4..|block| + 4 + k] == tail[..k];
  }

  /** A close marker has no proper border when the boundary has no carriage return: no
      suffix of it is also a prefix. So the first marker found in a file followed by its
      marker is that marker exactly when the file contains none. */
  lemma FileEnds(boundary: string, file: Bytes, rest: Bytes)
    requires NoCr(boundary)
    ensures IndexOf(file + Marker(boundary) + rest, Marker(boundary), 0) == Some(|file|) <==> !Occurs(file, Marker(boundary))
  {
    var mark := Marker(boundary);
    var text := file + mark + rest;
    var n := |file|;
    assert text[n..n + |mark|] == mark;
    assert OccursAt(text, mark, n);
    forall i: nat | i < n ensures OccursAt(text, mark, i) <==> OccursAt(file, mark, i) {
      if i + |mark| <= n {
        assert text[i..i + |mark|] == file[i..i + |mark|];
      } else {
        assert mark[n - i] != '\r' && text[n] == '\r';
        Mismatch(text, mark, i, n - i);
      }
    }
  }

  /** Round trip: parsing a composed single-part body hands the headers exactly the file
      bytes that were put in, whatever follows the close marker. */
  lemma RoundTrip(boundary: string, block: Bytes, file: Bytes, rest: Bytes, max: nat)
    requires NoCr(boundary)
    requires !Occurs(block, BLANK_LINE) && !EndsWith(block, CRLF)
    requires !Occurs(file, Marker(boundary))
    ensures ParseBody(boundary, Compose(boundary, block, file, rest), max) == Describe(block, file, max)
  {
    hide Describe;
    var tail := file + Marker(boundary) + rest;
    FileEnds(boundary, file, rest);
    BodyCut(boundary, block, tail, max, |file|);
    assert Compose(boundary, block, file, rest) == block + BLANK_LINE + tail && tail[..|file|] == file;
  }

  /** A file that does contain its own close marker is cut at the first one. */
  lemma CutAtMarker(boundary: string, block: Bytes, file: Bytes, rest: Bytes, max: nat, i: nat)
    requires !Occurs(block, BLANK_LINE) && !EndsWith(block, CRLF)
    requires IndexOf(file, Marker(boundary), 0) == Some(i)
    ensures ParseBody(boundary, Compose(boundary, block, file, rest), max) == Describe(block, file[..i], max)
  {
    hide Describe, ParseBody, IndexOf;
    var mark := Marker(boundary);
    var tail := file + mark + rest;
    assert tail[i..i + |mark|] == file[i..i + |mark|];
    assert OccursAt(tail, mark, i);
    forall j: nat | j < i ensures !OccursAt(tail, mark, j) {
      assert !OccursAt(file, mark, j);
      assert tail[j..j + |mark|] == file[j..j + |mark|];
    }
    BodyCut(boundary, block, tail, max, i);
    assert Compose(boundary, block, file, rest) == block + BLANK_LINE + tail && tail[..i] == file[..i];
  }

  /** Without the condition on the boundary the round trip fails: with a carriage return in
      it a marker can overlap itself, and a file without any marker is cut to nothing. */
  lemma CrBoundaryCuts(block: Bytes, rest: Bytes, max: nat)
    requires !Occurs(block, BLANK_LINE) && !EndsWith(block, CRLF)
    ensures var boundary, file := "a--\r\n--a", "\r\n--a--";
            && !Occurs(file, Marker(boundary))
            && ParseBody(boundary, Compose(boundary, block, file, rest), max) == Describe(block, "", max)
  {
    hide Describe, ParseBody;
    var boundary, file := "a--\r\n--a", "\r\n--a--";
    var mark := Marker(boundary);
    var tail := file + mark + rest;
    assert mark == file + file;
    assert tail[0..|mark|] == mark;
    assert OccursAt(tail, mark, 0);
    BodyCut(boundary, block, tail, max, 0);
    assert Compose(boundary, block, file, rest) == block + BLANK_LINE + tail && tail[..0] == "";
  }

  // ------------------------------------------------------------------ the headers

  lemma LineThen(line: string, rest: Bytes)
    requires NoCr(line)
    ensures Lines(line + CRLF + rest) == [line] + Lines(rest)
  {
    var text := line + CRLF + rest;
    assert text[|line|..|line| + 2] == CRLF;
    assert OccursAt(text, CRLF, |line|);
    forall i: nat | i < |line| ensures !OccursAt(text, CRLF, i) { Mismatch(text, CRLF, i, 0); }
    assert IndexOf(text, CRLF, 0) == Some(|line|) by { hide IndexOf; }
    assert text[..|line|] == line && text[|line| + 2..] == rest;
  }

  lemma LastLine(line: string)
    requires NoCr(line)
    ensures Lines(line) == [line]
  {
    hide IndexOf;
    forall i: nat ensures !OccursAt(line, CRLF, i) {
      if i + 2 <= |line| { Mismatch(line, CRLF, i, 0); }
    }
  }

  lemma {:induction false} QuoteEnds(value: string, post: string)
    requires '"' !in value
    ensures UpToQuote(value + "\"" + post) == Some(value)
    decreases |value|
  {
    var text := value + "\"" + post;
    if value != "" {
      QuoteEnds(value[1..], post);
      assert text[1..] == value[1..] + "\"" + post;
      assert [value[0]] + value[1..] == value;
    }
  }

  /** A search skips a stretch in which the key's first letter does not occur. */
  lemma {:induction false} SkipStretch(stretch: string, rest: string, key: string)
    requires key != "" && forall i :: 0 <= i < |stretch| ==> LowerChar(stretch[i]) != key[0]
    ensures Parameter(stretch + rest, key) == Parameter(rest, key)
    decreases |stretch|
  {
    var line := stretch + rest;
    if stretch == "" {
      assert line == rest;
    } else {
      SkipLetter(line, key, 0);
      SkipStretch(stretch[1..], rest, key);
      assert line[1..] == stretch[1..] + rest;
    }
  }

  /** ... and a place where the key breaks off after `k` letters. */
  lemma SkipLetter(line: string, key: string, k: nat)
    requires k < |key| && k < |line| && LowerChar(line[k]) != key[k]
    ensures Parameter(line, key) == Parameter(line[1..], key)
  {
    if |key| <= |line| { assert Lower(line[..|key|])[k] == LowerChar(line[k]); }
  }

  lemma ParameterHere(key: string, value: string, post: string)
    requires '"' !in value && Lower(key) == key
    ensures Parameter(key + value + "\"" + post, key) == Some(value)
  {
    var line := key + value + "\"" + post;
    assert line[..|key|] == key && line[|key|..] == value + "\"" + post;
    QuoteEnds(value, post);
  }

  const PREAMBLE := "Content-Disposition: form-data; "

  /** Past a stretch, and past one letter more at which the key breaks off after `k`. */
  lemma SkipPast(stretch: string, letter: char, next: string, key: string, k: nat)
    requires key != "" && forall i :: 0 <= i < |stretch| ==> LowerChar(stretch[i]) != key[0]
    requires 0 < k < |key| && k - 1 < |next| && LowerChar(next[k - 1]) != key[k]
    ensures Parameter(stretch + [letter] + next, key) == Parameter(next, key)
  {
    hide Parameter;
    SkipStretch(stretch, [letter] + next, key);
    SkipLetter([letter] + next, key, k);
    assert ([letter] + next)[1..] == next;
    assert stretch + [letter] + next == stretch + ([letter] + next);
  }

  /** The preamble matches neither parameter key. */
  lemma NameSkipsPreamble(rest: string)
    ensures Parameter(PREAMBLE + rest, "name=\"") == Parameter(rest, "name=\"")
  {
    hide Parameter;
    var key := "name=\"";
    var l2 := "t-Disposition: form-data; " + rest;
    var l1 := "te" + ['n'] + l2;
    PreambleSplits(rest);
    SkipPast("Co", 'n', l1, key, 1);
    SkipPast("te", 'n', l2, key, 1);
    NameSkipsRest(rest);
  }

  lemma PreambleSplits(rest: string)
    ensures PREAMBLE + rest == "Co" + ['n'] + ("te" + ['n'] + ("t-Disposition: form-data; " + rest))
  {
  }

  lemma NameSkipsRest(rest: string)
    ensures Parameter("t-Disposition: form-data; " + rest, "name=\"") == Parameter(rest, "name=\"")
  {
    hide Parameter;
    var key := "name=\"";
    var l1 := ": form-data; " + rest;
    SkipPast("t-Dispositio", 'n', l1, key, 1);
    SkipStretch(": form-data; ", rest, key);
    assert "t-Disposition: form-data; " + rest == "t-Dispositio" + ['n'] + l1;
  }

  lemma FilenameSkipsPreamble(rest: string)
    ensures Parameter(PREAMBLE + rest, "filename=\"") == Parameter(rest, "filename=\"")
  {
    hide Parameter;
    var key := "filename=\"";
    var l1 := "orm-data; " + rest;
    SkipPast("Content-Disposition: ", 'f', l1, key, 1);
    SkipStretch("orm-data; ", rest, key);
    assert PREAMBLE + rest == "Content-Disposition: " + ['f'] + l1;
  }

  /** The disposition line the field is documented with. */
  function Disposition(filename: string): string {
    PREAMBLE + ("name=\"file\"; filename=\"" + filename + "\"")
  }

  lemma FilenameOf(filename: string)
    requires '"' !in filename
    ensures Parameter(Disposition(filename), "filename=\"") == Some(filename)
  {
    hide Parameter;
    var key := "filename=\"";
    var here := key + filename + "\"" + "";
    var l1 := "ile\"; " + here;
    FilenameSkipsPreamble("name=\"file\"; filename=\"" + filename + "\"");
    assert "name=\"file\"; filename=\"" + filename + "\"" == "name=\"" + ['f'] + l1;
    SkipPast("name=\"", 'f', l1, key, 4);
    SkipStretch("ile\"; ", here, key);
    ParameterHere(key, filename, "");
  }

  lemma NameOf(value: string, post: string)
    requires '"' !in value
    ensures Parameter(PREAMBLE + ("name=\"" + value + "\"" + post), "name=\"") == Some(value)
  {
    hide Parameter;
    NameSkipsPreamble("name=\"" + value + "\"" + post);
    ParameterHere("name=\"", value, post);
  }

  lemma FieldNameOf(filename: string)
    ensures Parameter(Disposition(filename), "name=\"") == Some("file")
  {
    hide Parameter;
    var post := "; filename=\"" + filename + "\"";
    NameOf("file", post);
    assert "name=\"" + "file" + "\"" + post == "name=\"file\"; filename=\"" + filename + "\"";
  }

  /** The usual three-line header block of a single-part upload. */
  function Block(boundary: string, disposition: string, mediaType: string): Bytes {
    "--" + boundary + CRLF + (disposition + CRLF + ("Content-Type: " + mediaType))
  }

  lemma BlockLines(boundary: string, disposition: string, mediaType: string)
    requires NoCr(boundary) && NoCr(disposition) && NoCr(mediaType) && disposition != ""
    ensures var block := Block(boundary, disposition, mediaType);
            && !Occurs(block, BLANK_LINE) && !EndsWith(block, CRLF)
            && Lines(block) == ["--" + boundary, disposition, "Content-Type: " + mediaType]
  {
    var block := Block(boundary, disposition, mediaType);
    var typeLine := "Content-Type: " + mediaType;
    var p, q := |boundary| + 2, |boundary| + 4 + |disposition|;
    forall i: nat ensures !OccursAt(block, BLANK_LINE, i) {
      if i + 4 <= |block| {
        assert forall j: nat :: j < |block| && j != p && j != q ==> block[j] != '\r';
        Mismatch(block, BLANK_LINE, i, if i == p || i == q then 2 else 0);
      }
    }
    assert block[|block| - 2] == typeLine[|typeLine| - 2];
    LineThen("--" + boundary, disposition + CRLF + typeLine);
    LineThen(disposition, typeLine);
    LastLine(typeLine);
  }

  /** The declared media type, or the fallback when it is blank. */
  function MediaType(declared: string): string {
    var t := Lower(Trim(" " + declared));
    if t != "" then t else "application/octet-stream"
  }

  lemma Differs(line: string, prefix: string, k: nat)
    requires k < |prefix| && (k < |line| ==> LowerChar(line[k]) != prefix[k])
    ensures !StartsWithAnyCase(line, prefix)
  {
    if |prefix| <= |line| { assert Lower(line[..|prefix|])[k] == LowerChar(line[k]); }
  }

  /** How the three-line block is read, whatever its disposition parameters say. */
  lemma BlockRead(boundary: string, parameters: string, mediaType: string)
    requires NoCr(boundary) && NoCr(parameters) && NoCr(mediaType)
    ensures var lines := Lines(Block(boundary, PREAMBLE + parameters, mediaType));
            && FirstStarting(lines, "content-disposition:") == Some(PREAMBLE + parameters)
            && FirstStarting(lines, "content-type:") == Some("Content-Type: " + mediaType)
  {
    hide Lines, FirstStarting, StartsWithAnyCase;
    var disposition, typeLine := PREAMBLE + parameters, "Content-Type: " + mediaType;
    BlockLines(boundary, disposition, mediaType);
    DispositionStarts(parameters);
    assert Lower("Content-Type:") == "content-type:";
    Starts("Content-Type:", " " + mediaType);
    assert typeLine == "Content-Type:" + (" " + mediaType);
    Differs("--" + boundary, "content-disposition:", 0);
    Differs("--" + boundary, "content-type:", 0);
    Differs(disposition, "content-type:", 8);
    FirstIsThird("--" + boundary, disposition, typeLine);
  }

  lemma DispositionStarts(parameters: string)
    ensures StartsWithAnyCase(PREAMBLE + parameters, "content-disposition:")
  {
    hide StartsWithAnyCase;
    assert Lower("Content-Disposition:") == "content-disposition:";
    Starts("Content-Disposition:", " form-data; " + parameters);
    assert PREAMBLE + parameters == "Content-Disposition:" + (" form-data; " + parameters);
  }

  lemma Starts(head: string, rest: string)
    ensures StartsWithAnyCase(head + rest, Lower(head))
  {
    assert (head + rest)[..|head|] == head;
  }

  lemma FirstIsThird(a: string, b: string, c: string)
    requires !StartsWithAnyCase(a, "content-disposition:") && StartsWithAnyCase(b, "content-disposition:")
    requires !StartsWithAnyCase(a, "content-type:") && !StartsWithAnyCase(b, "content-type:") && StartsWithAnyCase(c, "content-type:")
    ensures FirstStarting([a, b, c], "content-disposition:") == Some(b)
    ensures FirstStarting([a, b, c], "content-type:") == Some(c)
  {
    hide StartsWithAnyCase;
    assert [a, b, c][1..] == [b, c] && [b, c][1..] == [c];
    assert FirstStarting([c], "content-type:") == Some(c);
    assert FirstStarting([b, c], "content-type:") == Some(c);
  }

  lemma Described(block: Bytes, bytes: Bytes, max: nat, disposition: string, filename: string, mediaType: string)
    requires FirstStarting(Lines(block), "content-disposition:") == Some(disposition)
    requires Parameter(disposition, "filename=\"") == Some(filename) && Parameter(disposition, "name=\"") == Some("file")
    requires FirstStarting(Lines(block), "content-type:") == Some("Content-Type: " + mediaType)
    ensures Describe(block, bytes, max) ==
              if |bytes| > max then Refused(TooLarge) else Accepted(Evidence(bytes, filename, MediaType(mediaType)))
  {
    hide Lines, Parameter, FirstStarting, Trim, StartsWithAnyCase, Lower;
    assert ("Content-Type: " + mediaType)[13..] == " " + mediaType;
  }

  lemma StandardRead(boundary: string, filename: string, mediaType: string, file: Bytes, max: nat)
    requires NoCr(boundary) && NoCr(filename) && NoCr(mediaType) && '"' !in filename
    ensures Describe(Block(boundary, Disposition(filename), mediaType), file, max) ==
              if |file| > max then Refused(TooLarge) else Accepted(Evidence(file, filename, MediaType(mediaType)))
  {
    hide Describe, Parameter, FirstStarting, Lines, Block, MediaType;
    var parameters := "name=\"file\"; filename=\"" + filename + "\"";
    BlockRead(boundary, parameters, mediaType);
    FilenameOf(filename);
    FieldNameOf(filename);
    Described(Block(boundary, Disposition(filename), mediaType), file, max, Disposition(filename), filename, mediaType);
  }

  lemma {:induction false} NoSemicolon(text: string)
    requires ';' !in text
    ensures UpToSemicolon(text) == text
    decreases |text|
  {
    if text != "" { NoSemicolon(text[1..]); }
  }

  lemma {:induction false} BoundarySkip(stretch: string, rest: string)
    requires forall i :: 0 <= i < |stretch| ==> LowerChar(stretch[i]) != 'b'
    ensures BoundaryOf(stretch + rest) == BoundaryOf(rest)
    decreases |stretch|
  {
    var header := stretch + rest;
    if stretch == "" {
      assert header == rest;
    } else {
      Differs(header, "boundary=", 0);
      BoundarySkip(stretch[1..], rest);
      assert header[1..] == stretch[1..] + rest;
    }
  }

  lemma BoundaryRead(boundary: string)
    requires boundary != "" && boundary[0] != '"' && ';' !in boundary
    ensures BoundaryOf("multipart/form-data; boundary=" + boundary) == Some(boundary)
  {
    hide BoundaryOf;
    var rest := "boundary=" + boundary;
    BoundarySkip("multipart/form-data; ", rest);
    assert "multipart/form-data; boundary=" + boundary == "multipart/form-data; " + rest;
    BoundaryHere(boundary);
  }

  lemma BoundaryHere(boundary: string)
    requires boundary != "" && boundary[0] != '"' && ';' !in boundary
    ensures BoundaryOf("boundary=" + boundary) == Some(boundary)
  {
    hide UpToSemicolon, StartsWithAnyCase;
    assert Lower("boundary=") == "boundary=";
    Starts("boundary=", boundary);
    assert ("boundary=" + boundary)[9..] == boundary;
    NoSemicolon(boundary);
  }

  /** A whole upload, from the request header to the evidence: with any boundary a client
      may choose, the file comes back byte for byte with its name and media type, unless
      the file or the envelope is too large. */
  lemma StandardUpload(boundary: string, filename: string, mediaType: string, file: Bytes, rest: Bytes, max: nat)
    requires boundary != "" && boundary[0] != '"' && ';' !in boundary && NoCr(boundary)
    requires NoCr(filename) && '"' !in filename && NoCr(mediaType)
    requires !Occurs(file, Marker(boundary))
    ensures var body := Compose(boundary, Block(boundary, Disposition(filename), mediaType), file, rest);
            Answer("multipart/form-data; boundary=" + boundary, body, max) ==
              if |body| > max + 32768 || |file| > max then Refused(TooLarge)
              else Accepted(Evidence(file, filename, MediaType(mediaType)))
  {
    hide Describe, ParseBody, BoundaryOf, Lines;
    var parameters := "name=\"file\"; filename=\"" + filename + "\"";
    assert Disposition(filename) == PREAMBLE + parameters;
    BoundaryRead(boundary);
    BlockLines(boundary, Disposition(filename), mediaType);
    RoundTrip(boundary, Block(boundary, Disposition(filename), mediaType), file, rest, max);
    StandardRead(boundary, filename, mediaType, file, max);
  }

  /** The order of the parameters matters, although section 4.2 of RFC 7578 fixes none:
      when the file name comes first, the search for `name="` stops inside `filename="`, so
      the field is taken to be named like the file, and the upload is refused unless the
      file itself happens to be called "file" or "evidence". */
  lemma FilenameFirst(boundary: string, filename: string, mediaType: string, file: Bytes, max: nat)
    requires NoCr(boundary) && NoCr(filename) && NoCr(mediaType) && '"' !in filename
    ensures var disposition := PREAMBLE + "filename=\"" + filename + "\"; name=\"file\"";
            Describe(Block(boundary, disposition, mediaType), file, max) == Refused(NoFileField)
            <==> filename !in ["file", "evidence"]
  {
    hide Lines, Parameter, FirstStarting;
    var parameters := "filename=\"" + filename + "\"; name=\"file\"";
    assert PREAMBLE + "filename=\"" + filename + "\"; name=\"file\"" == PREAMBLE + parameters;
    BlockRead(boundary, parameters, mediaType);
    FilenameFirstOf(filename);
  }

  lemma FilenameFirstOf(filename: string)
    requires '"' !in filename
    ensures var line := PREAMBLE + ("filename=\"" + filename + "\"; name=\"file\"");
            Parameter(line, "filename=\"") == Some(filename) && Parameter(line, "name=\"") == Some(filename)
  {
    hide Parameter;
    var post := "; name=\"file\"";
    var parameters := "filename=\"" + filename + "\"; name=\"file\"";
    FilenameSkipsPreamble(parameters);
    assert parameters == "filename=\"" + filename + "\"" + post;
    ParameterHere("filename=\"", filename, post);
    NameSkipsPreamble(parameters);
    assert parameters == "file" + ("name=\"" + filename + "\"" + post);
    SkipStretch("file", "name=\"" + filename + "\"" + post, "name=\"");
    ParameterHere("name=\"", filename, post);
  }
}
