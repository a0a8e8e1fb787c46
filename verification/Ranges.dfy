/**
 * Ranged requests, from the header the client prints to the answer the proxy gives out of its cache
 * (src/otaclient_common/downloader.py, src/ota_proxy/ota_cache.py; sections 14.2 and 14.4 of RFC 9110).
 */
module Ranges {
  import opened Prelude
  import opened Text

  // ------ the client's side ------ //

  function RequestHeader(resumeFrom: nat): string { "bytes=" + Dec(resumeFrom) + "-" }

  /** Digits, with single underscores between them. */
  predicate IntBody(s: string) {
    && s != "" && IsDigit(s[0]) && IsDigit(s[|s| - 1])
    && (forall i | 0 <= i < |s| :: IsDigit(s[i]) || s[i] == '_')
    && (forall i | 0 < i < |s| && s[i] == '_' :: s[i - 1] != '_')
  }

  function NoUnderscores(s: string): string
  {
    if s == "" then "" else (if s[0] == '_' then "" else [s[0]]) + NoUnderscores(s[1..])
  }

  lemma {:induction false} NoUnderscoresDigits(s: string)
    ensures (forall i | 0 <= i < |s| :: IsDigit(s[i]) || s[i] == '_') ==> AllDigits(NoUnderscores(s))
    ensures AllDigits(s) ==> NoUnderscores(s) == s
  {
    if s != "" {
      NoUnderscoresDigits(s[1..]);
      assert s == [s[0]] + s[1..];
    }
  }

  /** int() of a string; None where it raises ValueError. */
  function ParseInt(s: string): Option<int> {
    var t := Strip(s);
    var signed := t != "" && (t[0] == '-' || t[0] == '+');
    var body := if signed then t[1..] else t;
    if !IntBody(body) then None
    else
      NoUnderscoresDigits(body);
      var n: int := Value(NoUnderscores(body));
      Some(if signed && t[0] == '-' then -n else n)
  }

  lemma {:induction false} ParseDigits(d: string)
    requires d != "" && AllDigits(d)
    ensures ParseInt(d) == Some(Value(d))
  {
    StripTrimmed(d);
    NoUnderscoresDigits(d);
  }

  predicate RangeHonoured(status: int, contentRange: Option<string>, resumeFrom: nat) {
    status == 206
    && var header := if contentRange.Some? then contentRange.value else "";
    && ParseInt(Before(After(header, ' '), '-')) == Some(resumeFrom)
    && Lower(Before(header, ' ')) == "bytes"
  }

  // ------ the proxy's side ------ //

  /** What the pattern `\s*bytes=(\d+)-\s*` finds in the whole header. */
  function RangeStart(header: string): Option<nat> {
    var t := Strip(header);
    if |t| > 7 && t[..6] == "bytes=" && t[|t| - 1] == '-' && AllDigits(t[6..|t| - 1]) then Some(Value(t[6..|t| - 1]))
    else None
  }

  ghost predicate RangeForm(header: string, a: string, digits: string, b: string) {
    header == a + ("bytes=" + digits + "-") + b && AllSpace(a) && AllSpace(b) && digits != "" && AllDigits(digits)
  }

  /** It matches exactly the headers of its form, and gives their number. */
  lemma {:induction false} RangeStartIff(header: string, n: nat)
    ensures RangeStart(header) == Some(n) <==>
            exists a, digits, b :: RangeForm(header, a, digits, b) && Value(digits) == n
  {
    if RangeStart(header).Some? {
      var a, b := StripParts(header);
      var t := Strip(header);
      var digits := t[6..|t| - 1];
      assert t == "bytes=" + digits + "-";
      assert RangeForm(header, a, digits, b);
    }
    forall a, digits, b | RangeForm(header, a, digits, b) ensures RangeStart(header) == Some(Value(digits)) {
      var t := "bytes=" + digits + "-";
      assert t[0] == 'b' && t[|t| - 1] == '-';
      StripOf(a, t, b);
      assert t[..6] == "bytes=" && t[6..|t| - 1] == digits;
    }
  }

  function ContentRange(start: nat, size: nat): string
    requires size > 0
  {
    "bytes " + Dec(start) + "-" + Dec(size - 1) + "/" + Dec(size)
  }

  datatype CacheFile = Missing | NotRegular | Regular(content: Bytes)

  datatype Answer = Answer(contentRange: string, chunks: seq<Bytes>)

  /** The rest of a whole copy, from `start` on, and the header that says so. */
  ghost predicate IsRest(answer: Answer, file: Bytes, start: nat) {
    start < |file| && answer.contentRange == ContentRange(start, |file|) && Flatten(answer.chunks) == file[start..]
  }

  /** Reading a file from an offset on, chunk by chunk. */
  method StreamReadFile(file: Bytes, offset: nat, chunkSize: nat) returns (chunks: seq<Bytes>)
    requires chunkSize > 0
    ensures Flatten(chunks) == if offset <= |file| then file[offset..] else []
    ensures forall i | 0 <= i < |chunks| :: 0 < |chunks[i]| <= chunkSize
  {
    chunks := [];
    var at := offset;
    while at < |file|
      invariant offset <= |file| ==> offset <= at <= |file| && Flatten(chunks) == file[offset..at]
      invariant offset > |file| ==> at == offset && chunks == []
      invariant forall i | 0 <= i < |chunks| :: 0 < |chunks[i]| <= chunkSize
    {
      var upto := if at + chunkSize <= |file| then at + chunkSize else |file|;
      FlattenAppend(chunks, file[at..upto]);
      assert file[offset..upto] == file[offset..at] + file[at..upto];
      chunks, at := chunks + [file[at..upto]], upto;
    }
  }

  /** The local cache answers a range exactly where it holds a whole copy that reaches past the start. */
  method RetrieveRangeByCacheLookup(
      enabled: bool, noCache: bool, cacheSize: Option<nat>, file: CacheFile, start: nat, smallSize: nat, chunkSize: nat)
    returns (answer: Option<Answer>)
    requires chunkSize > 0
    ensures answer.Some? <==>
            && enabled && !noCache && file.Regular? && start < |file.content| && cacheSize == Some(|file.content|)
    ensures answer.Some? ==> IsRest(answer.value, file.content, start)
  {
    if !enabled || noCache || cacheSize.None? || cacheSize.value == 0 || !file.Regular? {
      return None;
    }
    var size := |file.content|;
    if size != cacheSize.value || start >= size {
      return None;
    }
    var chunks;
    if size <= smallSize {
      chunks := [file.content[start..]];
      assert chunks == [] + [file.content[start..]];
      FlattenAppend([], file.content[start..]);
    } else {
      chunks := StreamReadFile(file.content, start, chunkSize);
    }
    return Some(Answer(ContentRange(start, size), chunks));
  }

  // ------ end to end ------ //

  /** The proxy reads back the offset that the client printed. */
  lemma {:induction false} RequestIsRead(n: nat)
    ensures RangeStart(RequestHeader(n)) == Some(n)
  {
    RangeStartIff(RequestHeader(n), n);
    DecRoundTrip(n);
    assert RequestHeader(n) == "" + ("bytes=" + Dec(n) + "-") + "";
    assert RangeForm(RequestHeader(n), "", Dec(n), "");
  }

  lemma {:induction false} OffsetIsRead(start: nat, rest: string)
    ensures ParseInt(Before(Dec(start) + ['-'] + rest, '-')) == Some(start)
  {
    SplitAt(Dec(start), '-', rest);
    ParseDigits(Dec(start));
    DecRoundTrip(start);
  }

  lemma {:induction false} ContentRangeParts(start: nat, size: nat)
    requires size > 0
    ensures var header := ContentRange(start, size);
            Before(header, ' ') == "bytes" && ParseInt(Before(After(header, ' '), '-')) == Some(start)
  {
    var rest := Dec(size - 1) + "/" + Dec(size);
    var spec := Dec(start) + ['-'] + rest;
    assert ContentRange(start, size) == "bytes" + [' '] + spec;
    SplitAt("bytes", ' ', spec);
    OffsetIsRead(start, rest);
  }

  /** The client takes the proxy's header for the offset it asked for, and for no other. */
  lemma {:induction false} AnswerIsAccepted(start: nat, size: nat, resumeFrom: nat)
    requires size > 0
    ensures RangeHonoured(206, Some(ContentRange(start, size)), resumeFrom) <==> start == resumeFrom
  {
    ContentRangeParts(start, size);
    assert Lower("bytes") == "bytes";
  }

  /** A part of a file and the answer for its length are the whole file. */
  lemma {:induction false} RestCompletes(answer: Answer, file: Bytes, n: nat)
    requires IsRest(answer, file, n)
    ensures file[..n] + Flatten(answer.chunks) == file
    ensures RangeHonoured(206, Some(answer.contentRange), n)
  {
    AnswerIsAccepted(n, |file|, n);
    assert file[..n] + file[n..] == file;
  }
}
