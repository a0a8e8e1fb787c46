/**
 * A download that may continue what an interrupted one left on disk (src/otaclient_common/downloader.py).
 * The digest runs over the part already there and the part that arrives; the server may answer
 * anything at all.
 */
module Downloader {
  import opened Prelude
  import opened Ranges
  import Control = CacheControlHeader
  import OrderedDict

  /** How a body ends: at its end, in a broken decompression, or in any other exception. */
  datatype End = Complete | Broken | Fails

  datatype Stream = Stream(chunks: seq<Bytes>, end: End)

  /** `content` is the body as it is, `unpacked` what a decompressor makes of it; an empty policy field is none. */
  datatype Response =
    | NoAnswer
    | Response(status: int, contentRange: Option<string>, policySha: string, policyAlg: string,
               content: Stream, unpacked: Stream)

  /**
   * A size of 0, an empty digest and an empty algorithm stand for ones not given; `policy` is the
   * cache control header.
   */
  datatype Request = Request(size: nat, digest: string, compression: string, resumeFrom: nat, policy: string)

  datatype Outcome = Returned(fileSize: nat) | PartialDownload | HashMismatch | BrokenDecompression | Raised

  // ------ what a download should do ------ //

  /** The part on disk that the request says it has: none of a compressed download. */
  function Asked(req: Request): nat { if req.compression != "" then 0 else req.resumeFrom }

  predicate Has(before: Option<Bytes>, n: nat) { n == 0 || (before.Some? && n <= |before.value|) }

  predicate Answered(resp: Response) { resp.Response? && !(400 <= resp.status < 600) }

  predicate Resumes(req: Request, resp: Response) {
    resp.Response? && Asked(req) > 0 && RangeHonoured(resp.status, resp.contentRange, Asked(req))
  }

  predicate PolicyAgrees(req: Request, resp: Response)
    requires resp.Response?
  {
    req.digest == "" || resp.policySha == "" || req.digest == resp.policySha
  }

  /** The transfer begins: the part on disk is there, the server answered, and names no other digest. */
  predicate Begins(req: Request, resp: Response, before: Option<Bytes>) {
    Has(before, Asked(req)) && Answered(resp) && PolicyAgrees(req, resp)
  }

  function Body(supported: set<string>, req: Request, resp: Response): Stream
    requires resp.Response?
  {
    var alg := if resp.policyAlg != "" then resp.policyAlg else req.compression;
    if alg in supported then resp.unpacked else resp.content
  }

  /** What stays of the file: the part asked for if the server continues it, else nothing. */
  function Base(req: Request, resp: Response, before: Option<Bytes>): Bytes {
    if Resumes(req, resp) && before.Some? && Asked(req) <= |before.value| then before.value[..Asked(req)] else []
  }

  function Result(supported: set<string>, req: Request, resp: Response, before: Option<Bytes>): Bytes
    requires resp.Response?
  {
    Base(req, resp, before) + Flatten(Body(supported, req, resp).chunks)
  }

  predicate RightSize(req: Request, file: Bytes) { req.size != 0 ==> |file| == req.size }

  predicate RightDigest(hash: Bytes -> string, req: Request, file: Bytes) {
    req.digest != "" ==> hash(file) == req.digest
  }

  function Resumable(before: Option<Bytes>, size: nat): (n: nat)
    ensures n == 0 || (before.Some? && 0 < n < size && n == |before.value|)
    ensures before.Some? && 0 < |before.value| < size ==> n == |before.value|
  {
    if before.Some? && 0 < |before.value| < size then |before.value| else 0
  }

  /** inject_cache_retry_directory: the second request asks an otaproxy to cache anew. */
  function RetryPolicy(policy: string): string { Control.UpdateHeader(policy, [("retry_caching", Control.Flag)]) }

  /** The request that is made after the first one failed in a way that a retry can mend. */
  function RetryOf(req: Request, first: Outcome, left: Option<Bytes>): Request {
    req.(policy := RetryPolicy(req.policy),
         resumeFrom := if first.PartialDownload? then ResumablePart(req, left) else 0)
  }

  predicate Mendable(o: Outcome) { o.PartialDownload? || o.HashMismatch? || o.BrokenDecompression? }

  /** The retry after a cut continues the part on disk, unless it was decompressed or has no known size. */
  function ResumablePart(req: Request, before: Option<Bytes>): nat {
    if req.size == 0 || req.compression != "" then 0 else Resumable(before, req.size)
  }

  // ------ the downloader ------ //

  class Downloader {
    const hash: Bytes -> string
    const supported: set<string>
    const chunkSize: nat
    var dst: Option<Bytes>     // the file at the destination
    var fed: Bytes             // what the digest object in use was fed

    constructor (hash: Bytes -> string, supported: set<string>, chunkSize: nat, dst: Option<Bytes>)
      ensures this.hash == hash && this.supported == supported && this.chunkSize == chunkSize && this.dst == dst
      ensures fed == []
    {
      this.hash, this.supported, this.chunkSize, this.dst := hash, supported, chunkSize, dst;
      fed := [];
    }

    /** _hash_existing: the first `upTo` bytes go into the digest; a shorter file is found out. */
    method HashExisting(file: Bytes, upTo: nat) returns (ok: bool)
      requires chunkSize > 0
      modifies this`fed
      ensures ok <==> upTo <= |file|
      ensures fed == old(fed) + file[..if ok then upTo else |file|]
    {
      var at, remaining := 0, upTo;
      while remaining > 0
        invariant 0 <= at <= |file| && 0 <= remaining && at + remaining == upTo
        invariant fed == old(fed) + file[..at]
        decreases remaining
      {
        var want := if chunkSize < remaining then chunkSize else remaining;
        var upto := if at + want <= |file| then at + want else |file|;
        var chunk := file[at..upto];
        if |chunk| == 0 {
          return false;
        }
        fed := fed + chunk;
        assert file[..upto] == file[..at] + chunk;
        at, remaining := upto, remaining - |chunk|;
      }
      return true;
    }

    /** The loop over the chunks: what was fed is at every turn what is in the file. */
    method Transfer(chunks: seq<Bytes>) returns (size: nat)
      requires dst == Some(fed)
      modifies this`fed, this`dst
      ensures dst == Some(fed) && fed == old(fed) + Flatten(chunks) && size == |Flatten(chunks)|
    {
      size := 0;
      assert chunks[..0] == [];
      for i := 0 to |chunks|
        invariant dst == Some(fed) && fed == old(fed) + Flatten(chunks[..i]) && size == |Flatten(chunks[..i])|
      {
        var chunk := chunks[i];
        assert chunks[..i + 1] == chunks[..i] + [chunk];
        FlattenAppend(chunks[..i], chunk);
        fed := fed + chunk;
        dst := Some(dst.value + chunk);
        size := size + |chunk|;
      }
      assert chunks[..|chunks|] == chunks;
    }

    /** The part on disk is hashed before the request is made. */
    method HashPart(n: nat) returns (failure: Option<Outcome>)
      requires chunkSize > 0
      modifies this`fed
      ensures failure.None? <==> Has(dst, n)
      ensures failure.None? ==> fed == if n == 0 then [] else dst.value[..n]
      ensures failure.Some? ==> failure.value == if dst.None? then Raised else PartialDownload
    {
      fed := [];
      if n == 0 {
        return None;
      }
      if dst.None? {
        return Some(Raised);
      }
      var ok := HashExisting(dst.value, n);
      return if ok then None else Some(PartialDownload);
    }

    /** The file is opened, cut to the part that is continued, or to nothing. */
    method OpenDst(req: Request, resp: Response)
      requires resp.Response? && Has(dst, Asked(req)) && fed == if Asked(req) == 0 then [] else dst.value[..Asked(req)]
      modifies this`fed, this`dst
      ensures dst == Some(fed) && fed == Base(req, resp, old(dst))
    {
      var n := Asked(req);
      var resumed := n > 0 && RangeHonoured(resp.status, resp.contentRange, n);
      if resumed {
        dst := Some(dst.value[..n]);
      } else {
        fed, dst := [], Some([]);
      }
    }

    /**
     * Whatever is on disk and whatever the server answers, it returns if and only if the transfer
     * began and ended well and the file then has the size and the digest asked for.
     */
    method Download(req: Request, resp: Response) returns (o: Outcome)
      requires chunkSize > 0
      modifies this`fed, this`dst
      ensures Begins(req, resp, old(dst)) ==> dst == Some(Result(supported, req, resp, old(dst))) && fed == dst.value
      ensures !Begins(req, resp, old(dst)) ==>
                || dst == old(dst)
                || (resp.Response? && !PolicyAgrees(req, resp) && dst == Some(Base(req, resp, old(dst))))
      ensures o.Returned? <==>
              && Begins(req, resp, old(dst)) && Body(supported, req, resp).end.Complete?
              && RightSize(req, Result(supported, req, resp, old(dst)))
              && RightDigest(hash, req, Result(supported, req, resp, old(dst)))
      ensures o.Returned? ==> dst.Some? && o.fileSize == |dst.value|
      ensures o.Returned? ==> RightSize(req, dst.value) && RightDigest(hash, req, dst.value)
      ensures o.PartialDownload? <==>
              if Begins(req, resp, old(dst))
              then Body(supported, req, resp).end.Complete? && !RightSize(req, dst.value)
              else old(dst).Some? && !Has(old(dst), Asked(req))
      ensures o.HashMismatch? ==> Has(old(dst), Asked(req)) && Answered(resp)
    {
      var n := if req.resumeFrom > 0 && req.compression != "" then 0 else req.resumeFrom;
      var failure := HashPart(n);
      if failure.Some? {
        return failure.value;
      }
      if !Answered(resp) {
        return Raised;
      }
      OpenDst(req, resp);
      if !PolicyAgrees(req, resp) {
        return HashMismatch;
      }
      var part := |fed|;
      var body := Body(supported, req, resp);
      var size := Transfer(body.chunks);
      if body.end.Broken? {
        return BrokenDecompression;
      } else if body.end.Fails? {
        return Raised;
      }
      var fileSize := part + size;
      if req.size != 0 && req.size != fileSize {
        return PartialDownload;
      }
      if req.digest != "" && hash(fed) != req.digest {
        return HashMismatch;
      }
      return Returned(fileSize);
    }

    /**
     * retry_on_digest_mismatch: a cut download is continued, bytes that hashed wrong or did not
     * decompress are never built on, and a return means the right file either way. Whatever the second
     * attempt ends in, once its transfer begins the file is its body, behind the part left by the first
     * only where that was cut short and the server continues it.
     */
    method DownloadWithRetry(req: Request, resp: Response, again: Response)
      returns (o: Outcome, first: Outcome, left: Option<Bytes>, retry: Option<Request>)
      requires chunkSize > 0
      modifies this`fed, this`dst
      ensures o.Returned? ==> dst.Some? && o.fileSize == |dst.value|
      ensures o.Returned? ==> RightSize(req, dst.value) && RightDigest(hash, req, dst.value)
      ensures retry == if Mendable(first) then Some(RetryOf(req, first, left)) else None
      ensures retry.None? ==> o == first && dst == left
      ensures retry.Some? && Begins(retry.value, again, left) ==>
                var tail := Flatten(Body(supported, req, again).chunks);
                var resumed := first.PartialDownload? && Resumes(retry.value, again);
                dst == Some(if resumed then left.value + tail else tail) && fed == dst.value
      ensures retry.Some? && !Begins(retry.value, again, left) ==>
                && !o.Returned?
                && (dst == left
                    || (again.Response? && !PolicyAgrees(req, again) && dst == Some(Base(retry.value, again, left))))
      ensures retry.Some? && !first.PartialDownload? ==> retry.value.resumeFrom == 0
    {
      first := Download(req, resp);
      left := dst;
      if !Mendable(first) {
        return first, first, left, None;
      }
      var second := RetryOf(req, first, left);
      o := Download(second, again);
      retry := Some(second);
      if again.Response? {
        WholeBody(supported, req, second, again, left);
      }
    }
  }

  /** What a retry ends with: the body alone, or the part left and the body where the server continues it. */
  lemma {:induction false} WholeBody(
      supported: set<string>, req: Request, retry: Request, again: Response, left: Option<Bytes>)
    requires again.Response? && retry == req.(resumeFrom := retry.resumeFrom, policy := retry.policy)
    requires retry.resumeFrom > 0 ==> left.Some? && retry.resumeFrom == |left.value|
    ensures Body(supported, req, again) == Body(supported, retry, again)
    ensures Result(supported, retry, again, left) ==
            var tail := Flatten(Body(supported, req, again).chunks);
            if Resumes(retry, again) then left.value + tail else tail
  {
    if Resumes(retry, again) {
      assert left.value[..retry.resumeFrom] == left.value;
    }
  }

  /** The second request says so: it carries retry_caching, and every other directive of the first that had a value. */
  lemma {:induction false} RetryAsksToCacheAnew(policy: string, k: string)
    requires Control.Valid(k) && Control.Get(policy, k) != Some(Control.Str(""))
    ensures Control.Get(RetryPolicy(policy), k) ==
            if k == "retry_caching" then Some(Control.Flag) else Control.Get(policy, k)
  {
    var updates: Control.Directives := [("retry_caching", Control.Flag)];
    assert updates[1..] == [];
    assert OrderedDict.Lookup(updates[1..], k) == None;
    assert OrderedDict.Lookup(updates, k) == if k == "retry_caching" then Some(Control.Flag) else None;
    Control.UpdateAt(policy, updates, k);
    Control.ReadTruthy(policy, k);
  }

  // ------ an honest server ------ //

  /** It answers with the whole file, or with the rest of it from the offset asked for. */
  ghost predicate Honest(req: Request, resp: Response, file: Bytes) {
    && resp.Response? && resp.policyAlg == "" && PolicyAgrees(req, resp) && resp.content.end.Complete?
    && (if resp.status == 206
        then Asked(req) < |file| && resp.contentRange == Some(ContentRange(Asked(req), |file|))
             && Flatten(resp.content.chunks) == file[Asked(req)..]
        else resp.status == 200 && Flatten(resp.content.chunks) == file)
  }

  lemma {:induction false} PartAndRest(part: Bytes, file: Bytes)
    requires part <= file
    ensures part + file[|part|..] == file
  {}

  /** Continuing a part of a file with an honest server gives the file, whether or not the server honours the range. */
  lemma {:induction false} HonestServerCompletes(
      supported: set<string>, req: Request, resp: Response, file: Bytes, before: Option<Bytes>)
    requires "" !in supported && req.compression == "" && Honest(req, resp, file)
    requires req.resumeFrom > 0 ==>
        before.Some? && req.resumeFrom <= |before.value| && before.value[..req.resumeFrom] <= file
    requires req.resumeFrom == 0 ==> resp.status == 200
    ensures Begins(req, resp, before) && Result(supported, req, resp, before) == file
  {
    if resp.status == 206 {
      AnswerIsAccepted(req.resumeFrom, |file|, req.resumeFrom);
      PartAndRest(before.value[..req.resumeFrom], file);
    }
  }

  /**
   * What a cut download of a file left is continued to the file by an honest server: the length on
   * disk is the offset to ask for.
   */
  lemma {:induction false} RetryCompletesTheCut(
      supported: set<string>, req: Request, again: Response, file: Bytes, left: Option<Bytes>)
    requires "" !in supported && req.compression == "" && req.size == |file| && left.Some? && left.value <= file
    requires Honest(RetryOf(req, PartialDownload, left), again, file)
    requires RetryOf(req, PartialDownload, left).resumeFrom == 0 ==> again.status == 200
    ensures var retry := RetryOf(req, PartialDownload, left);
            && Begins(retry, again, left) && Result(supported, retry, again, left) == file
            && (0 < |left.value| < |file| ==> retry.resumeFrom == |left.value|)
  {
    HonestServerCompletes(supported, RetryOf(req, PartialDownload, left), again, file, left);
  }

  /**
   * A client with a part of a cached file, and the proxy that has it whole: the header printed is
   * read, the answer accepted, the file completed.
   */
  method ResumeFromProxy(d: Downloader, file: Bytes, n: nat, smallSize: nat) returns (o: Outcome)
    requires d.chunkSize > 0 && "" !in d.supported
    requires 0 < n < |file| && d.dst == Some(file[..n])
    modifies d`fed, d`dst
    ensures o == Returned(|file|) && d.dst == Some(file)
  {
    RequestIsRead(n);
    var start := RangeStart(RequestHeader(n));
    var answer := RetrieveRangeByCacheLookup(
      true, false, Some(|file|), Regular(file), start.value, smallSize, d.chunkSize);
    var req := Request(|file|, d.hash(file), "", n, "");
    var resp := Response(206, Some(answer.value.contentRange), d.hash(file), "",
                         Stream(answer.value.chunks, Complete), Stream([], Complete));
    HonestServerCompletes(d.supported, req, resp, file, d.dst);
    o := d.Download(req, resp);
  }
}
